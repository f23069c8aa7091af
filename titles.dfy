/**
 * The heading of the result screen: an ordered list of rules, each a set of
 * markers and a title; the first rule with a marker contained in the
 * lower-cased path gives the title.
 */
module Titles {
  import opened Wrappers
  import opened Text

  const DEFAULT_TITLE := "Recomendación personalizada"
  const REJUVENATION_TITLE := "Recomendación: Rejuvenecimiento facial avanzado"
  const SKIN_TITLE := "Recomendación: Salud de piel y faciales"
  const LIPS_TITLE := "Recomendación: Labios y armonización facial"
  const BODY_TITLE := "Recomendación: Remodelación corporal"
  const DETOX_TITLE := "Recomendación: Detox y bienestar integral"
  const WEIGHT_TITLE := "Recomendación: Control de peso y metabolismo"
  const EVALUATION_TITLE := "Recomendación: Evaluación profesional personalizada"

  datatype Rule = Rule(markers: seq<string>, title: string)

  /** The rules in the order they are tried. */
  const RULES: seq<Rule> := [
    Rule(["rejuven", "anti", "advanced"], REJUVENATION_TITLE),
    Rule(["facial", "skin"], SKIN_TITLE),
    Rule(["lab", "armon", "lips"], LIPS_TITLE),
    Rule(["corp", "body", "remodel"], BODY_TITLE),
    Rule(["detox", "well", "ozono"], DETOX_TITLE),
    Rule(["peso", "weight", "metab"], WEIGHT_TITLE),
    Rule(["eval", "pro"], EVALUATION_TITLE)
  ]

  /** Every title the heading can show. */
  const TITLES: set<string> := {
    DEFAULT_TITLE, REJUVENATION_TITLE, SKIN_TITLE, LIPS_TITLE,
    BODY_TITLE, DETOX_TITLE, WEIGHT_TITLE, EVALUATION_TITLE
  }

  /** Some marker of `rule` occurs in `p`. */
  predicate Fires(p: string, rule: Rule)
  {
    exists i :: 0 <= i < |rule.markers| && Includes(p, rule.markers[i])
  }

  /** Rule `k` is the first rule that fires on `p`. */
  ghost predicate FirstFiring(p: string, k: int)
  {
    0 <= k < |RULES| && Fires(p, RULES[k]) && forall j :: 0 <= j < k ==> !Fires(p, RULES[j])
  }

  lemma FiresTwo(p: string, a: string, b: string, t: string)
    ensures Fires(p, Rule([a, b], t)) <==> Includes(p, a) || Includes(p, b)
  {
    var ms := [a, b];
    assert ms[0] == a && ms[1] == b;
  }

  lemma FiresThree(p: string, a: string, b: string, c: string, t: string)
    ensures Fires(p, Rule([a, b, c], t)) <==> Includes(p, a) || Includes(p, b) || Includes(p, c)
  {
    var ms := [a, b, c];
    assert ms[0] == a && ms[1] == b && ms[2] == c;
  }

  /** What firing means for each of the seven rules. */
  lemma FiresUnfold(p: string)
    ensures Fires(p, RULES[0]) <==> Includes(p, "rejuven") || Includes(p, "anti") || Includes(p, "advanced")
    ensures Fires(p, RULES[1]) <==> Includes(p, "facial") || Includes(p, "skin")
    ensures Fires(p, RULES[2]) <==> Includes(p, "lab") || Includes(p, "armon") || Includes(p, "lips")
    ensures Fires(p, RULES[3]) <==> Includes(p, "corp") || Includes(p, "body") || Includes(p, "remodel")
    ensures Fires(p, RULES[4]) <==> Includes(p, "detox") || Includes(p, "well") || Includes(p, "ozono")
    ensures Fires(p, RULES[5]) <==> Includes(p, "peso") || Includes(p, "weight") || Includes(p, "metab")
    ensures Fires(p, RULES[6]) <==> Includes(p, "eval") || Includes(p, "pro")
  {
    FiresThree(p, "rejuven", "anti", "advanced", REJUVENATION_TITLE);
    FiresTwo(p, "facial", "skin", SKIN_TITLE);
    FiresThree(p, "lab", "armon", "lips", LIPS_TITLE);
    FiresThree(p, "corp", "body", "remodel", BODY_TITLE);
    FiresThree(p, "detox", "well", "ozono", DETOX_TITLE);
    FiresThree(p, "peso", "weight", "metab", WEIGHT_TITLE);
    FiresTwo(p, "eval", "pro", EVALUATION_TITLE);
  }

  /** The title for an already lower-cased path: the chain of tests as the component writes it. */
  function TitleFor(p: string): string
  {
    if Includes(p, "rejuven") || Includes(p, "anti") || Includes(p, "advanced") then REJUVENATION_TITLE
    else if Includes(p, "facial") || Includes(p, "skin") then SKIN_TITLE
    else if Includes(p, "lab") || Includes(p, "armon") || Includes(p, "lips") then LIPS_TITLE
    else if Includes(p, "corp") || Includes(p, "body") || Includes(p, "remodel") then BODY_TITLE
    else if Includes(p, "detox") || Includes(p, "well") || Includes(p, "ozono") then DETOX_TITLE
    else if Includes(p, "peso") || Includes(p, "weight") || Includes(p, "metab") then WEIGHT_TITLE
    else if Includes(p, "eval") || Includes(p, "pro") then EVALUATION_TITLE
    else DEFAULT_TITLE
  }

  /** The chain of tests follows the rule list: the first rule that fires wins; if none fires, the default. */
  lemma TitleForFirstMatch(p: string)
    ensures forall k :: FirstFiring(p, k) ==> TitleFor(p) == RULES[k].title
    ensures (forall k :: 0 <= k < |RULES| ==> !Fires(p, RULES[k])) ==> TitleFor(p) == DEFAULT_TITLE
  {
    FiresUnfold(p);
  }

  /** `resultTitle(path)`: an absent or empty path gives the default title, any other path the title of its lower-cased form. */
  function ResultTitle(path: Option<string>): (title: string)
    ensures path == None || path == Some("") ==> title == DEFAULT_TITLE
    ensures title in TITLES
  {
    if path == None || path == Some("") then DEFAULT_TITLE
    else TitleFor(Lower(path.value))
  }

  /**
   * For a non-empty path, the first rule that fires on the lower-cased path
   * gives the title, and a path on which no rule fires gets the default.
   */
  lemma ResultTitleFirstMatch(s: string)
    requires s != ""
    ensures forall k :: FirstFiring(Lower(s), k) ==> ResultTitle(Some(s)) == RULES[k].title
    ensures (forall k :: 0 <= k < |RULES| ==> !Fires(Lower(s), RULES[k])) ==> ResultTitle(Some(s)) == DEFAULT_TITLE
  {
    TitleForFirstMatch(Lower(s));
  }

  /** A non-empty path already in lower case is tested as it is. */
  lemma ResultTitleOfLower(s: string)
    requires s != "" && LowerFrom(s, 0)
    ensures ResultTitle(Some(s)) == TitleFor(s)
  {
  }

  /** The heading does not depend on the case of the path's ASCII letters. */
  lemma ResultTitleIgnoresCase(s: string)
    ensures ResultTitle(Some(s)) == ResultTitle(Some(Lower(s)))
  {
    LowerIdempotent(s);
    assert s == "" <==> Lower(s) == "";
  }

  /** The first rule wins: "anti-facial" fires the skin rule too, but the rejuvenation rule comes first. */
  lemma EarlierRuleWins()
    ensures Fires("anti-facial", RULES[1])
    ensures ResultTitle(Some("anti-facial")) == REJUVENATION_TITLE
  {
    var p := "anti-facial";
    IncludedAt(p, "facial", 5);
    FiresTwo(p, "facial", "skin", SKIN_TITLE);
    assert TitleFor(p) == REJUVENATION_TITLE by {
      IncludedAt(p, "anti", 0);
    }
    ResultTitleOfLower(p);
  }
}
