/**
 * The completion endpoint: the quiz posts its answers, and the endpoint
 * answers with a treatment path and a short summary chosen by an exact match
 * on the goal answer, echoing the request's lead score, lead type and intent.
 */
module QuizComplete {
  import opened Wrappers

  /** One exact-match arm of the endpoint: the goal text, the path it leads to and its summary line. */
  datatype Route = Route(goal: string, path: string, line: string)

  const REJUVENATION_GOAL := "Rejuvenecer mi piel (líneas, manchas, textura)"
  const HARMONY_GOAL := "Realzar y armonizar la apariencia de mi rostro (labios, pómulos, ojeras)"
  const WEIGHT_GOAL := "Bajar de peso, desintoxicar y revitalizar mi cuerpo"
  const FACIAL_GOAL := "Faciales profesionales y limpieza profunda"
  const BODY_GOAL := "Remodelación corporal y tonificación"
  const WELLNESS_GOAL := "Bienestar hormonal y salud integral"

  const REJUVENATION_PATH := "rejuvenecimiento"
  const HARMONY_PATH := "armonizacion"
  const WEIGHT_PATH := "metabolismo"
  const FACIAL_PATH := "facial"
  const BODY_PATH := "corporal"
  const WELLNESS_PATH := "bienestar"

  /** The path of a goal that matches no arm; it comes with an empty summary. */
  const DEFAULT_PATH := "evaluation"

  const REJUVENATION_LINE := "Tratamientos faciales avanzados para rejuvenecimiento de la piel"
  const HARMONY_LINE := "Armonización facial y realce de rasgos"
  const WEIGHT_LINE := "Programa de control de peso y detoxificación"
  const FACIAL_LINE := "Cuidado profundo y salud de la piel"
  const BODY_LINE := "Plan corporal para tonificación y firmeza"
  const WELLNESS_LINE := "Enfoque holístico de bienestar integral"

  /** The arms in the order they are tested. */
  const ROUTES: seq<Route> := [
    Route(REJUVENATION_GOAL, REJUVENATION_PATH, REJUVENATION_LINE),
    Route(HARMONY_GOAL, HARMONY_PATH, HARMONY_LINE),
    Route(WEIGHT_GOAL, WEIGHT_PATH, WEIGHT_LINE),
    Route(FACIAL_GOAL, FACIAL_PATH, FACIAL_LINE),
    Route(BODY_GOAL, BODY_PATH, BODY_LINE),
    Route(WELLNESS_GOAL, WELLNESS_PATH, WELLNESS_LINE)
  ]

  /** Every path the endpoint can answer with. */
  const PATHS: set<string> := {
    DEFAULT_PATH, REJUVENATION_PATH, HARMONY_PATH, WEIGHT_PATH,
    FACIAL_PATH, BODY_PATH, WELLNESS_PATH
  }

  /**
   * The request body. The lead score, lead type and intent are never looked
   * at, only echoed, so their types are left open.
   */
  datatype Request<S, T, I> = Request(answers: map<string, string>, leadScore: S, leadType: T, intent: I)

  /** The response body. */
  datatype Response<S, T, I> = Response(path: string, summary: seq<string>, leadScore: S, leadType: T, intent: I)

  /** The part of the response the quiz keeps as its result. */
  datatype Recommendation = Recommendation(path: string, summary: seq<string>)

  /** `answers.goal`: the goal answer, absent when the answers have no "goal" key. */
  function GoalOf(answers: map<string, string>): Option<string>
  {
    if "goal" in answers then Some(answers["goal"]) else None
  }

  /** No two arms test the same goal, so at most one can match. */
  lemma RouteGoalsDistinct()
    ensures forall i, j :: 0 <= i < j < |ROUTES| ==> ROUTES[i].goal != ROUTES[j].goal
  {
  }

  /**
   * The first arm of `routes` whose goal equals `goal`, or the default path
   * with an empty summary when none does.
   */
  function RecommendFrom(goal: Option<string>, routes: seq<Route>): (r: Recommendation)
    ensures |r.summary| <= 1
    ensures r == Recommendation(DEFAULT_PATH, [])
            || exists i :: 0 <= i < |routes| && r == Recommendation(routes[i].path, [routes[i].line])
    ensures (forall i :: 0 <= i < |routes| ==> goal != Some(routes[i].goal)) ==> r == Recommendation(DEFAULT_PATH, [])
    ensures forall i :: 0 <= i < |routes| && goal == Some(routes[i].goal)
              && (forall j :: 0 <= j < i ==> goal != Some(routes[j].goal))
              ==> r == Recommendation(routes[i].path, [routes[i].line])
  {
    if routes == [] then Recommendation(DEFAULT_PATH, [])
    else if goal == Some(routes[0].goal) then Recommendation(routes[0].path, [routes[0].line])
    else
      var r := RecommendFrom(goal, routes[1..]);
      assert forall i :: 1 <= i < |routes| ==> routes[i] == routes[1..][i - 1];
      r
  }

  /**
   * The endpoint's choice for a goal: the arm whose goal is exactly `goal`
   * gives its path and its one summary line; a goal matching no arm, or an
   * absent goal, gives the default path and an empty summary.
   */
  function Recommend(goal: Option<string>): (r: Recommendation)
    ensures r.path in PATHS && |r.summary| <= 1
    ensures forall i :: 0 <= i < |ROUTES| && goal == Some(ROUTES[i].goal)
              ==> r == Recommendation(ROUTES[i].path, [ROUTES[i].line])
    ensures (forall i :: 0 <= i < |ROUTES| ==> goal != Some(ROUTES[i].goal)) ==> r == Recommendation(DEFAULT_PATH, [])
  {
    RouteGoalsDistinct();
    RecommendFrom(goal, ROUTES)
  }

  /** The summary is empty exactly when the path is the default one. */
  lemma SummaryEmptyIffDefault(goal: Option<string>)
    ensures Recommend(goal).summary == [] <==> Recommend(goal).path == DEFAULT_PATH
  {
    var r := Recommend(goal);
    if exists i :: 0 <= i < |ROUTES| && goal == Some(ROUTES[i].goal) {
      var i :| 0 <= i < |ROUTES| && goal == Some(ROUTES[i].goal);
      assert r == Recommendation(ROUTES[i].path, [ROUTES[i].line]);
      assert ROUTES[i].path != DEFAULT_PATH;
    }
  }

  /** Answers other than the goal never change the endpoint's choice. */
  lemma OnlyGoalMatters(answers: map<string, string>, key: string, value: string)
    requires key != "goal"
    ensures Recommend(GoalOf(answers[key := value])) == Recommend(GoalOf(answers))
    ensures Recommend(GoalOf(answers - {key})) == Recommend(GoalOf(answers))
  {
    assert GoalOf(answers[key := value]) == GoalOf(answers);
    assert GoalOf(answers - {key}) == GoalOf(answers);
  }

  /**
   * The handler: start from the default path and an empty summary, then let
   * the first arm whose goal equals the request's goal set the path and push
   * its line. The three passthrough values are returned as they came.
   */
  method Post<S, T, I>(req: Request<S, T, I>) returns (resp: Response<S, T, I>)
    ensures Recommendation(resp.path, resp.summary) == Recommend(GoalOf(req.answers))
    ensures resp.leadScore == req.leadScore && resp.leadType == req.leadType && resp.intent == req.intent
  {
    var path := DEFAULT_PATH;
    var summary: seq<string> := [];
    var goal := GoalOf(req.answers);
    if goal == Some(REJUVENATION_GOAL) {
      path := REJUVENATION_PATH;
      summary := summary + [REJUVENATION_LINE];
      assert ROUTES[0].goal == REJUVENATION_GOAL;
    } else if goal == Some(HARMONY_GOAL) {
      path := HARMONY_PATH;
      summary := summary + [HARMONY_LINE];
      assert ROUTES[1].goal == HARMONY_GOAL;
    } else if goal == Some(WEIGHT_GOAL) {
      path := WEIGHT_PATH;
      summary := summary + [WEIGHT_LINE];
      assert ROUTES[2].goal == WEIGHT_GOAL;
    } else if goal == Some(FACIAL_GOAL) {
      path := FACIAL_PATH;
      summary := summary + [FACIAL_LINE];
      assert ROUTES[3].goal == FACIAL_GOAL;
    } else if goal == Some(BODY_GOAL) {
      path := BODY_PATH;
      summary := summary + [BODY_LINE];
      assert ROUTES[4].goal == BODY_GOAL;
    } else if goal == Some(WELLNESS_GOAL) {
      path := WELLNESS_PATH;
      summary := summary + [WELLNESS_LINE];
      assert ROUTES[5].goal == WELLNESS_GOAL;
    }
    resp := Response(path, summary, req.leadScore, req.leadType, req.intent);
  }
}
