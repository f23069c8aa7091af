/**
 * The heading shown for each path the completion endpoint can return. For
 * each path, one lemma per rule before the first that fires rules out that
 * rule's markers: a marker is ruled out by naming one of its characters the
 * path lacks or, where the path has them all, by running the scan. Each rule
 * gets a lemma of its own because the facts about one string literal are
 * cheap to prove a few at a time and costly to prove together. The heading
 * is then settled on the path as written, and lower-casing is shown to
 * leave the path unchanged.
 */
module TitlePaths {
  import opened Wrappers
  import opened Text
  import opened Titles

  /** Rule 0 is the first to fire on "rejuvenecimiento". */
  lemma TitleForRejuvenecimiento()
    ensures TitleFor("rejuvenecimiento") == REJUVENATION_TITLE
  {
    IncludedAt("rejuvenecimiento", "rejuven", 0);
  }

  /** The heading the result screen shows for the path "rejuvenecimiento". */
  lemma TitleOfRejuvenecimiento()
    ensures ResultTitle(Some("rejuvenecimiento")) == REJUVENATION_TITLE
  {
    ResultTitleOfLower("rejuvenecimiento");
    TitleForRejuvenecimiento();
  }

  /** No marker of rule 0 occurs in "facial". */
  lemma FacialMissesRule0()
    ensures !Includes("facial", "rejuven") && !Includes("facial", "anti") && !Includes("facial", "advanced")
  {
    var p := "facial";
    MissingChar(p, "rejuven", 'r'); MissingChar(p, "anti", 'n'); MissingChar(p, "advanced", 'd');
  }

  /** Rule 1 is the first to fire on "facial". */
  lemma TitleForFacial()
    ensures TitleFor("facial") == SKIN_TITLE
  {
    FacialMissesRule0();
    IncludedAt("facial", "facial", 0);
  }

  /** The heading the result screen shows for the path "facial". */
  lemma TitleOfFacial()
    ensures ResultTitle(Some("facial")) == SKIN_TITLE
  {
    ResultTitleOfLower("facial");
    TitleForFacial();
  }

  /** No marker of rule 0 occurs in "armonizacion". */
  lemma ArmonizacionMissesRule0()
    ensures !Includes("armonizacion", "rejuven") && !Includes("armonizacion", "anti") && !Includes("armonizacion", "advanced")
  {
    var p := "armonizacion";
    MissingChar(p, "rejuven", 'e'); MissingChar(p, "anti", 't'); MissingChar(p, "advanced", 'd');
  }

  /** No marker of rule 1 occurs in "armonizacion". */
  lemma ArmonizacionMissesRule1()
    ensures !Includes("armonizacion", "facial") && !Includes("armonizacion", "skin")
  {
    var p := "armonizacion";
    MissingChar(p, "facial", 'f'); MissingChar(p, "skin", 's');
  }

  /** Rule 2 is the first to fire on "armonizacion". */
  lemma TitleForArmonizacion()
    ensures TitleFor("armonizacion") == LIPS_TITLE
  {
    ArmonizacionMissesRule0();
    ArmonizacionMissesRule1();
    IncludedAt("armonizacion", "armon", 0);
  }

  /** The heading the result screen shows for the path "armonizacion". */
  lemma TitleOfArmonizacion()
    ensures ResultTitle(Some("armonizacion")) == LIPS_TITLE
  {
    ResultTitleOfLower("armonizacion");
    TitleForArmonizacion();
  }

  /** No marker of rule 0 occurs in "corporal". */
  lemma CorporalMissesRule0()
    ensures !Includes("corporal", "rejuven") && !Includes("corporal", "anti") && !Includes("corporal", "advanced")
  {
    var p := "corporal";
    MissingChar(p, "rejuven", 'e'); MissingChar(p, "anti", 'n'); MissingChar(p, "advanced", 'd');
  }

  /** No marker of rule 1 occurs in "corporal". */
  lemma CorporalMissesRule1()
    ensures !Includes("corporal", "facial") && !Includes("corporal", "skin")
  {
    var p := "corporal";
    MissingChar(p, "facial", 'f'); MissingChar(p, "skin", 's');
  }

  /** No marker of rule 2 occurs in "corporal". */
  lemma CorporalMissesRule2()
    ensures !Includes("corporal", "lab") && !Includes("corporal", "armon") && !Includes("corporal", "lips")
  {
    var p := "corporal";
    MissingChar(p, "lab", 'b'); MissingChar(p, "armon", 'm'); MissingChar(p, "lips", 'i');
  }

  /** Rule 3 is the first to fire on "corporal". */
  lemma TitleForCorporal()
    ensures TitleFor("corporal") == BODY_TITLE
  {
    CorporalMissesRule0();
    CorporalMissesRule1();
    CorporalMissesRule2();
    IncludedAt("corporal", "corp", 0);
  }

  /** The heading the result screen shows for the path "corporal". */
  lemma TitleOfCorporal()
    ensures ResultTitle(Some("corporal")) == BODY_TITLE
  {
    ResultTitleOfLower("corporal");
    TitleForCorporal();
  }

  /** No marker of rule 0 occurs in "metabolismo". */
  lemma MetabolismoMissesRule0()
    ensures !Includes("metabolismo", "rejuven") && !Includes("metabolismo", "anti") && !Includes("metabolismo", "advanced")
  {
    var p := "metabolismo";
    MissingChar(p, "rejuven", 'r'); MissingChar(p, "anti", 'n'); MissingChar(p, "advanced", 'd');
  }

  /** No marker of rule 1 occurs in "metabolismo". */
  lemma MetabolismoMissesRule1()
    ensures !Includes("metabolismo", "facial") && !Includes("metabolismo", "skin")
  {
    var p := "metabolismo";
    MissingChar(p, "facial", 'f'); MissingChar(p, "skin", 'k');
  }

  /** No marker of rule 2 occurs in "metabolismo". */
  lemma MetabolismoMissesRule2()
    ensures !Includes("metabolismo", "lab") && !Includes("metabolismo", "armon") && !Includes("metabolismo", "lips")
  {
    var p := "metabolismo";
    IncludesByScan(p, "lab"); MissingChar(p, "armon", 'r'); MissingChar(p, "lips", 'p');
  }

  /** No marker of rule 3 occurs in "metabolismo". */
  lemma MetabolismoMissesRule3()
    ensures !Includes("metabolismo", "corp") && !Includes("metabolismo", "body") && !Includes("metabolismo", "remodel")
  {
    var p := "metabolismo";
    MissingChar(p, "corp", 'c'); MissingChar(p, "body", 'd'); MissingChar(p, "remodel", 'r');
  }

  /** No marker of rule 4 occurs in "metabolismo". */
  lemma MetabolismoMissesRule4()
    ensures !Includes("metabolismo", "detox") && !Includes("metabolismo", "well") && !Includes("metabolismo", "ozono")
  {
    var p := "metabolismo";
    MissingChar(p, "detox", 'd'); MissingChar(p, "well", 'w'); MissingChar(p, "ozono", 'z');
  }

  /** Rule 5 is the first to fire on "metabolismo". */
  lemma TitleForMetabolismo()
    ensures TitleFor("metabolismo") == WEIGHT_TITLE
  {
    MetabolismoMissesRule0();
    MetabolismoMissesRule1();
    MetabolismoMissesRule2();
    MetabolismoMissesRule3();
    MetabolismoMissesRule4();
    IncludedAt("metabolismo", "metab", 0);
  }

  /** The heading the result screen shows for the path "metabolismo". */
  lemma TitleOfMetabolismo()
    ensures ResultTitle(Some("metabolismo")) == WEIGHT_TITLE
  {
    ResultTitleOfLower("metabolismo");
    TitleForMetabolismo();
  }

  /** No marker of rule 0 occurs in "evaluation". */
  lemma EvaluationMissesRule0()
    ensures !Includes("evaluation", "rejuven") && !Includes("evaluation", "anti") && !Includes("evaluation", "advanced")
  {
    var p := "evaluation";
    MissingChar(p, "rejuven", 'r'); IncludesByScan(p, "anti"); MissingChar(p, "advanced", 'd');
  }

  /** No marker of rule 1 occurs in "evaluation". */
  lemma EvaluationMissesRule1()
    ensures !Includes("evaluation", "facial") && !Includes("evaluation", "skin")
  {
    var p := "evaluation";
    MissingChar(p, "facial", 'f'); MissingChar(p, "skin", 's');
  }

  /** No marker of rule 2 occurs in "evaluation". */
  lemma EvaluationMissesRule2()
    ensures !Includes("evaluation", "lab") && !Includes("evaluation", "armon") && !Includes("evaluation", "lips")
  {
    var p := "evaluation";
    MissingChar(p, "lab", 'b'); MissingChar(p, "armon", 'r'); MissingChar(p, "lips", 'p');
  }

  /** No marker of rule 3 occurs in "evaluation". */
  lemma EvaluationMissesRule3()
    ensures !Includes("evaluation", "corp") && !Includes("evaluation", "body") && !Includes("evaluation", "remodel")
  {
    var p := "evaluation";
    MissingChar(p, "corp", 'c'); MissingChar(p, "body", 'b'); MissingChar(p, "remodel", 'r');
  }

  /** No marker of rule 4 occurs in "evaluation". */
  lemma EvaluationMissesRule4()
    ensures !Includes("evaluation", "detox") && !Includes("evaluation", "well") && !Includes("evaluation", "ozono")
  {
    var p := "evaluation";
    MissingChar(p, "detox", 'd'); MissingChar(p, "well", 'w'); MissingChar(p, "ozono", 'z');
  }

  /** No marker of rule 5 occurs in "evaluation". */
  lemma EvaluationMissesRule5()
    ensures !Includes("evaluation", "peso") && !Includes("evaluation", "weight") && !Includes("evaluation", "metab")
  {
    var p := "evaluation";
    MissingChar(p, "peso", 'p'); MissingChar(p, "weight", 'w'); MissingChar(p, "metab", 'm');
  }

  /** Rule 6 is the first to fire on "evaluation". */
  lemma TitleForEvaluation()
    ensures TitleFor("evaluation") == EVALUATION_TITLE
  {
    EvaluationMissesRule0();
    EvaluationMissesRule1();
    EvaluationMissesRule2();
    EvaluationMissesRule3();
    EvaluationMissesRule4();
    EvaluationMissesRule5();
    IncludedAt("evaluation", "eval", 0);
  }

  /** The heading the result screen shows for the path "evaluation". */
  lemma TitleOfEvaluation()
    ensures ResultTitle(Some("evaluation")) == EVALUATION_TITLE
  {
    ResultTitleOfLower("evaluation");
    TitleForEvaluation();
  }

  /** No marker of rule 0 occurs in "bienestar". */
  lemma BienestarMissesRule0()
    ensures !Includes("bienestar", "rejuven") && !Includes("bienestar", "anti") && !Includes("bienestar", "advanced")
  {
    var p := "bienestar";
    MissingChar(p, "rejuven", 'j'); IncludesByScan(p, "anti"); MissingChar(p, "advanced", 'd');
  }

  /** No marker of rule 1 occurs in "bienestar". */
  lemma BienestarMissesRule1()
    ensures !Includes("bienestar", "facial") && !Includes("bienestar", "skin")
  {
    var p := "bienestar";
    MissingChar(p, "facial", 'f'); MissingChar(p, "skin", 'k');
  }

  /** No marker of rule 2 occurs in "bienestar". */
  lemma BienestarMissesRule2()
    ensures !Includes("bienestar", "lab") && !Includes("bienestar", "armon") && !Includes("bienestar", "lips")
  {
    var p := "bienestar";
    MissingChar(p, "lab", 'l'); MissingChar(p, "armon", 'm'); MissingChar(p, "lips", 'l');
  }

  /** No marker of rule 3 occurs in "bienestar". */
  lemma BienestarMissesRule3()
    ensures !Includes("bienestar", "corp") && !Includes("bienestar", "body") && !Includes("bienestar", "remodel")
  {
    var p := "bienestar";
    MissingChar(p, "corp", 'c'); MissingChar(p, "body", 'o'); MissingChar(p, "remodel", 'm');
  }

  /** No marker of rule 4 occurs in "bienestar". */
  lemma BienestarMissesRule4()
    ensures !Includes("bienestar", "detox") && !Includes("bienestar", "well") && !Includes("bienestar", "ozono")
  {
    var p := "bienestar";
    MissingChar(p, "detox", 'd'); MissingChar(p, "well", 'w'); MissingChar(p, "ozono", 'o');
  }

  /** No marker of rule 5 occurs in "bienestar". */
  lemma BienestarMissesRule5()
    ensures !Includes("bienestar", "peso") && !Includes("bienestar", "weight") && !Includes("bienestar", "metab")
  {
    var p := "bienestar";
    MissingChar(p, "peso", 'p'); MissingChar(p, "weight", 'w'); MissingChar(p, "metab", 'm');
  }

  /** No marker of rule 6 occurs in "bienestar". */
  lemma BienestarMissesRule6()
    ensures !Includes("bienestar", "eval") && !Includes("bienestar", "pro")
  {
    var p := "bienestar";
    MissingChar(p, "eval", 'v'); MissingChar(p, "pro", 'p');
  }

  /** No rule fires on "bienestar". */
  lemma TitleForBienestar()
    ensures TitleFor("bienestar") == DEFAULT_TITLE
  {
    BienestarMissesRule0();
    BienestarMissesRule1();
    BienestarMissesRule2();
    BienestarMissesRule3();
    BienestarMissesRule4();
    BienestarMissesRule5();
    BienestarMissesRule6();
  }

  /** The heading the result screen shows for the path "bienestar". */
  lemma TitleOfBienestar()
    ensures ResultTitle(Some("bienestar")) == DEFAULT_TITLE
  {
    ResultTitleOfLower("bienestar");
    TitleForBienestar();
  }
}
