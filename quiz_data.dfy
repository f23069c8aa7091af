/**
 * The fixed data of the quiz component: the eight questions asked in order
 * and the checks a lead must pass before it is sent.
 */
module QuizData {
  import opened Wrappers
  import opened Text

  datatype QuestionKind = Choice | FreeText

  /** One question: a unique key into the answer record, its prompt, and the allowed options of a choice question. */
  datatype Question = Question(id: string, prompt: string, kind: QuestionKind, options: Option<seq<string>>)

  const GOAL_OPTIONS: seq<string> := [
    "Rejuvenecer mi piel (líneas, manchas, textura)",
    "Mejorar la apariencia de mi rostro (labios, pómulos, ojeras)",
    "Bajar de peso o desintoxicar mi cuerpo",
    "Faciales y limpieza profunda",
    "Remodelación corporal o tonificación",
    "Bienestar hormonal y salud integral",
    "No estoy segura(o), quiero orientación profesional"
  ]

  const QUESTIONS: seq<Question> := [
    Question("goal", "¿Qué te gustaría mejorar o trabajar en este momento?", Choice, Some(GOAL_OPTIONS)),
    Question("area", "¿En qué área deseas enfocarte principalmente?", Choice, Some([
      "Rostro",
      "Labios",
      "Ojeras",
      "Pómulos",
      "Cuello / papada",
      "Cuerpo",
      "Peso y metabolismo",
      "Bienestar general"
    ])),
    Question("concern", "¿Qué preocupación te identifica más en este momento?", Choice, Some([
      "Arrugas o líneas de expresión",
      "Manchas o melasma",
      "Flacidez",
      "Poros abiertos o textura irregular",
      "Ojeras",
      "Acné o marcas",
      "Grasa localizada",
      "Retención de líquidos",
      "Cansancio, inflamación o estrés"
    ])),
    Question("experience", "¿Has recibido tratamientos estéticos antes?", Choice, Some([
      "Sí, tratamientos avanzados",
      "Sí, tratamientos básicos",
      "No, sería mi primera vez",
      "Prefiero opciones holísticas y no invasivas"
    ])),
    Question("preference", "¿Qué tipo de tratamiento prefieres?", Choice, Some([
      "No invasivos (faciales, radiofrecuencia, LED, hidrofacial)",
      "Inyectables (toxina, ácido hialurónico, bioestimuladores)",
      "Tecnología avanzada (HIFU, láser, microagujas)",
      "Holístico y detox (ozono, vitaminas, sauna)",
      "Quiero que el especialista me recomiende"
    ])),
    Question("name", "Nombre completo", FreeText, None),
    Question("email", "Correo electrónico", FreeText, None),
    Question("phone", "Teléfono", FreeText, None)
  ]

  /** The index of the last question; completing it finishes the quiz. */
  const LAST_STEP: nat := |QUESTIONS| - 1

  /**
   * The question list is well formed: eight questions with distinct ids,
   * choice questions (and only they) carry options, the goal question comes
   * first and the three contact fields are the last three free-text questions.
   */
  lemma QuestionsWellFormed()
    ensures |QUESTIONS| == 8 && LAST_STEP == 7
    ensures forall i, j :: 0 <= i < j < |QUESTIONS| ==> QUESTIONS[i].id != QUESTIONS[j].id
    ensures forall i :: 0 <= i < |QUESTIONS| ==> (QUESTIONS[i].kind == Choice <==> QUESTIONS[i].options.Some?)
    ensures QUESTIONS[0].id == "goal" && QUESTIONS[0].options == Some(GOAL_OPTIONS) && |GOAL_OPTIONS| == 7
    ensures QUESTIONS[5].id == "name" && QUESTIONS[6].id == "email" && QUESTIONS[7].id == "phone"
    ensures forall i :: 5 <= i < |QUESTIONS| ==> QUESTIONS[i].kind == FreeText
  {
  }

  /** The contact record the result screen collects. */
  datatype Lead = Lead(name: string, email: string, phone: string, consent: bool)

  const EMPTY_LEAD := Lead("", "", "", false)

  /**
   * The lead schema: a name at least one code unit long, an e-mail address
   * the given e-mail check accepts, a phone at least seven UTF-16 code units
   * long, and consent given.
   */
  predicate LeadValid(lead: Lead, emailOk: string -> bool)
  {
    Utf16Length(lead.name) >= 1 && emailOk(lead.email) && Utf16Length(lead.phone) >= 7 && lead.consent
  }

  /**
   * Lengths are counted in code units: a phone of four characters from
   * outside the Basic Multilingual Plane is eight units long and passes the
   * length check, while a six-digit phone fails it.
   */
  lemma PhoneLengthInCodeUnits(name: string, email: string, emailOk: string -> bool)
    requires name != "" && emailOk(email)
    ensures |"\U{1F4F1}\U{1F4F1}\U{1F4F1}\U{1F4F1}"| == 4
    ensures LeadValid(Lead(name, email, "\U{1F4F1}\U{1F4F1}\U{1F4F1}\U{1F4F1}", true), emailOk)
    ensures !LeadValid(Lead(name, email, "555123", true), emailOk)
  {
    assert Utf16Length("\U{1F4F1}\U{1F4F1}\U{1F4F1}\U{1F4F1}") == 8;
  }

  /** The lead the quiz starts with fails the schema, whatever the e-mail check. */
  lemma EmptyLeadInvalid(emailOk: string -> bool)
    ensures !LeadValid(EMPTY_LEAD, emailOk)
  {
  }
}
