// The pure part of the backend assessments client
// (src/app/services/assessments.service.ts): turning a local questionnaire
// result into the backend record, the upper-casing done before create and
// update, and the text of an HTTP error.

module AssessmentsConversion {
  import opened Common
  import opened StressAssessment
  import opened AssessmentHistory
  import opened AssessmentTracking

  datatype AssessmentType = Psychological | Performance | Wellbeing | RiskAnalysis

  datatype EmotionalState = Calm | Stressed | Anxious | Depressed | Motivated | Fatigued | Neutral

  function TypeName(t: AssessmentType): string
  {
    match t
    case Psychological => "PSYCHOLOGICAL"
    case Performance => "PERFORMANCE"
    case Wellbeing => "WELLBEING"
    case RiskAnalysis => "RISK_ANALYSIS"
  }

  function StateName(s: EmotionalState): string
  {
    match s
    case Calm => "CALM"
    case Stressed => "STRESSED"
    case Anxious => "ANXIOUS"
    case Depressed => "DEPRESSED"
    case Motivated => "MOTIVATED"
    case Fatigued => "FATIGUED"
    case Neutral => "NEUTRAL"
  }

  /** The local result as the conversion reads it; the level is whatever text the caller stored. */
  datatype LocalResult = LocalResult(score: real, level: string, categoryScores: Option<CategoryScores>,
                                     recommendations: Option<seq<string>>)

  /** The backend record; type and state travel as text. */
  datatype Assessment = Assessment(employeeId: int, assessmentType: string, score: int, emotionalState: string,
                                   observations: string, recommendations: string)

  /** The level-to-state table: low, moderate and high are mapped, anything else is neutral. */
  function EmotionalStateOf(level: string): (r: EmotionalState)
    ensures r == Calm <==> level == "low"
    ensures r == Stressed <==> level == "moderate"
    ensures r == Anxious <==> level == "high"
    ensures r == Neutral <==> level !in {"low", "moderate", "high"}
  {
    if level == "low" then Calm
    else if level == "moderate" then Stressed
    else if level == "high" then Anxious
    else Neutral
  }

  /** The text the history keeps for a level. */
  function LevelText(l: Level): string
  {
    match l
    case Low => "low"
    case Moderate => "moderate"
    case High => "high"
  }

  /** A level the questionnaire produces is never mapped to the neutral state. */
  lemma QuestionnaireLevelsMapped(l: Level)
    ensures EmotionalStateOf(LevelText(l)) in {Calm, Stressed, Anxious}
    ensures l == High <==> EmotionalStateOf(LevelText(l)) == Anxious
  {
  }

  /**
   * The assessment type: psychological without category scores; otherwise
   * the category the reduce keeps (the last maximum) decides: work gives
   * performance, sleep or physical give well-being, emotional psychological.
   */
  function TypeOf(c: Option<CategoryScores>): (r: AssessmentType)
    ensures r != RiskAnalysis
    ensures r == Performance <==>
      c.Some? && c.value.work > c.value.sleep && c.value.work > c.value.physical && c.value.work > c.value.emotional
    ensures r == Psychological <==>
      c.None? ||
      (c.value.emotional >= c.value.work && c.value.emotional >= c.value.sleep && c.value.emotional >= c.value.physical)
  {
    if c.None? then Psychological
    else
      var k := HighestCategory(c.value);
      var name := CategoryNames[k];
      var v := CategoryValues(c.value);
      assert v == [c.value.work, c.value.sleep, c.value.physical, c.value.emotional];
      assert v[0] <= v[k] && v[1] <= v[k] && v[2] <= v[k] && v[3] <= v[k];
      assert k < 3 ==> v[3] < v[k];
      assert k < 2 ==> v[2] < v[k];
      assert k < 1 ==> v[1] < v[k];
      assert name == "work" <==> k == 0;
      assert name == "physical" || name == "sleep" <==> k == 1 || k == 2;
      if name == "work" then Performance
      else if name == "physical" || name == "sleep" then Wellbeing
      else Psychological
  }

  /** With every category equal the emotional one is kept, so the type is psychological. */
  lemma AllEqualIsPsychological(x: real)
    ensures TypeOf(Some(CategoryScores(x, x, x, x))) == Psychological
  {
  }

  /** `Array.prototype.join`. */
  function Join(parts: seq<string>, sep: string): string
  {
    if |parts| == 0 then ""
    else if |parts| == 1 then parts[0]
    else Join(parts[..|parts| - 1], sep) + sep + parts[|parts| - 1]
  }

  /** Total length of the parts. */
  function Lengths(parts: seq<string>): nat
  {
    if parts == [] then 0 else Lengths(parts[..|parts| - 1]) + |parts[|parts| - 1]|
  }

  /** Joining n parts adds n - 1 separators and nothing else. */
  lemma {:induction false} JoinLength(parts: seq<string>, sep: string)
    requires |parts| > 0
    ensures |Join(parts, sep)| == Lengths(parts) + |sep| * (|parts| - 1)
  {
    if |parts| > 1 {
      var init := parts[..|parts| - 1];
      JoinLength(init, sep);
      assert Lengths(init) == Lengths(parts[..|parts| - 1]);
    } else {
      assert parts[..0] == [];
    }
  }

  /** Every part appears in the joined text. */
  lemma {:induction false} JoinContainsParts(parts: seq<string>, sep: string, i: nat)
    requires i < |parts|
    ensures Contains(Join(parts, sep), parts[i])
  {
    var j := Join(parts, sep);
    if |parts| == 1 {
      assert OccursAt(j, parts[i], 0);
    } else if i == |parts| - 1 {
      assert OccursAt(j, parts[i], |j| - |parts[i]|);
    } else {
      var init := parts[..|parts| - 1];
      JoinContainsParts(init, sep, i);
      var k :| 0 <= k <= |Join(init, sep)| && OccursAt(Join(init, sep), parts[i], k);
      assert j[k..k + |parts[i]|] == Join(init, sep)[k..k + |parts[i]|];
      assert OccursAt(j, parts[i], k);
    }
  }

  const DefaultRecommendation: string := "Se recomienda seguimiento continuo del estado emocional y evaluaciones periódicas."

  /** The recommendations text: a non-empty list joined by ". " and closed with "."; otherwise the default sentence. */
  function RecommendationText(recs: Option<seq<string>>): (r: string)
    ensures |r| > 0 && r[|r| - 1] == '.'
    ensures recs.None? || recs.value == [] ==> r == DefaultRecommendation
  {
    if recs.Some? && |recs.value| > 0 then Join(recs.value, ". ") + "." else DefaultRecommendation
  }

  /** Every recommendation given appears in the text. */
  lemma RecommendationsKept(recs: seq<string>, i: nat)
    requires i < |recs|
    ensures Contains(RecommendationText(Some(recs)), recs[i])
  {
    JoinContainsParts(recs, ". ", i);
    var j := Join(recs, ". ");
    var k :| 0 <= k <= |j| && OccursAt(j, recs[i], k);
    assert (j + ".")[k..k + |recs[i]|] == j[k..k + |recs[i]|];
    assert OccursAt(j + ".", recs[i], k);
  }

  /** Two recommendations read "a. b.". */
  lemma TwoRecommendations(a: string, b: string)
    ensures RecommendationText(Some([a, b])) == a + ". " + b + "."
  {
    assert [a, b][..1] == [a];
    assert Join([a, b], ". ") == a + ". " + b;
  }

  /**
   * The observations text. With category scores it lists the four scores
   * and the level; `show` stands for JavaScript's number-to-text. Without
   * them it gives the rounded score.
   */
  function ObservationText(local: LocalResult, score: int, show: real -> string): string
  {
    if local.categoryScores.Some? then
      var c := local.categoryScores.value;
      "Evaluación de estrés completada. Puntajes por categoría - Trabajo: " + show(c.work) + "/100, Sueño: " +
      show(c.sleep) + "/100, Físico: " + show(c.physical) + "/100, Emocional: " + show(c.emotional) +
      "/100. Nivel de estrés detectado: " + local.level + "."
    else "Evaluación completada con puntaje de " + IntToText(score) + "/100"
  }

  /** `convertLocalToBackendFormat`; an absent employee id defaults to 1. */
  function Convert(local: LocalResult, employeeId: Option<int>, show: real -> string): (r: Assessment)
    ensures r.employeeId == employeeId.GetOr(1)
    ensures r.score as real - 0.5 <= local.score < r.score as real + 0.5
    ensures r.assessmentType == TypeName(TypeOf(local.categoryScores))
    ensures r.emotionalState == StateName(EmotionalStateOf(local.level))
    ensures r.recommendations == RecommendationText(local.recommendations)
    ensures r.observations == ObservationText(local, r.score, show)
  {
    var score := RoundReal(local.score);
    Assessment(employeeId.GetOr(1), TypeName(TypeOf(local.categoryScores)), score,
               StateName(EmotionalStateOf(local.level)), ObservationText(local, score, show),
               RecommendationText(local.recommendations))
  }

  /** A score already in 0..100 stays in 0..100 after rounding; whole scores are kept. */
  lemma ConvertedScoreRange(local: LocalResult, employeeId: Option<int>, show: real -> string)
    requires 0.0 <= local.score <= 100.0
    ensures 0 <= Convert(local, employeeId, show).score <= 100
    ensures local.score == local.score.Floor as real ==> Convert(local, employeeId, show).score == local.score.Floor
  {
  }

  /** Create and update send type and state upper-cased. */
  function ForBackend(a: Assessment): (r: Assessment)
    ensures r.assessmentType == ToUpper(a.assessmentType) && r.emotionalState == ToUpper(a.emotionalState)
    ensures r.(assessmentType := a.assessmentType, emotionalState := a.emotionalState) == a
  {
    a.(assessmentType := ToUpper(a.assessmentType), emotionalState := ToUpper(a.emotionalState))
  }

  predicate NoLowerCase(s: string)
  {
    forall i :: 0 <= i < |s| ==> !IsLowerLetter(s[i])
  }

  lemma UpperFixed(s: string)
    requires NoLowerCase(s)
    ensures ToUpper(s) == s
  {
    assert forall i :: 0 <= i < |s| ==> ToUpper(s)[i] == s[i];
  }

  lemma UpperNoLowerCase(s: string)
    ensures NoLowerCase(ToUpper(s))
  {
  }

  /** Upper-casing twice is upper-casing once. */
  lemma ForBackendIdempotent(a: Assessment)
    ensures ForBackend(ForBackend(a)) == ForBackend(a)
  {
    UpperNoLowerCase(a.assessmentType);
    UpperNoLowerCase(a.emotionalState);
    UpperFixed(ToUpper(a.assessmentType));
    UpperFixed(ToUpper(a.emotionalState));
  }

  /** A converted record already has upper-case type and state, so create sends it unchanged. */
  lemma ConvertedIsBackendReady(local: LocalResult, employeeId: Option<int>, show: real -> string)
    ensures ForBackend(Convert(local, employeeId, show)) == Convert(local, employeeId, show)
  {
    var r := Convert(local, employeeId, show);
    TypeNameUpper(TypeOf(local.categoryScores));
    StateNameUpper(EmotionalStateOf(local.level));
    UpperFixed(r.assessmentType);
    UpperFixed(r.emotionalState);
  }

  lemma TypeNameUpper(t: AssessmentType)
    ensures NoLowerCase(TypeName(t))
  {
    match t
    case Psychological =>
    case Performance =>
    case Wellbeing =>
    case RiskAnalysis =>
  }

  lemma StateNameUpper(s: EmotionalState)
    ensures NoLowerCase(StateName(s))
  {
    match s
    case Calm =>
    case Stressed =>
    case Anxious =>
    case Depressed =>
    case Motivated =>
    case Fatigued =>
    case Neutral =>
  }

  /** A lower-case type typed by hand reaches the backend in the backend's spelling. */
  lemma LowerCaseTypeSentUpper(a: Assessment)
    requires a.assessmentType == "wellbeing"
    ensures ForBackend(a).assessmentType == TypeName(Wellbeing)
  {
  }

  // ---------------------------------------------------------------------
  // HTTP errors

  /** An error raised in the browser, or a response with a status. */
  datatype HttpError = ClientSide(message: string) | ServerSide(status: int, message: string)

  /** The status-0 message, kept in three pieces so that its middle, "conectar con el servidor", can be located. */
  const Unreachable: string :=
    "No se puede " + "conectar con el servidor" + ". Verifica que el backend esté ejecutándose."
  const BadRequest: string := "Solicitud inválida. Verifica los datos enviados."
  const NotFound: string := "Assessment no encontrado."
  const ServerFailure: string := "Error interno del servidor."
  const CodePrefix: string := "Código de error: "

  /** `handleError`: the message of the error it rethrows. */
  function ErrorMessage(e: HttpError): (r: string)
    ensures e.ClientSide? ==> r == "Error: " + e.message
    ensures e.ServerSide? && e.status == 0 ==> r == Unreachable
    ensures e.ServerSide? && e.status == 400 ==> r == BadRequest
    ensures e.ServerSide? && e.status == 404 ==> r == NotFound
    ensures e.ServerSide? && e.status == 500 ==> r == ServerFailure
    ensures e.ServerSide? && e.status !in {0, 400, 404, 500} ==>
      r == CodePrefix + IntToText(e.status) + "\nMensaje: " + e.message
  {
    match e
    case ClientSide(m) => "Error: " + m
    case ServerSide(status, m) =>
      if status == 0 then Unreachable
      else if status == 400 then BadRequest
      else if status == 404 then NotFound
      else if status == 500 then ServerFailure
      else CodePrefix + IntToText(status) + "\nMensaje: " + m
  }

  /** For any other status the message carries the status: the digits after the prefix read back as it. */
  lemma StatusReadBack(status: nat, message: string)
    requires status !in {0, 400, 404, 500}
    ensures var r := ErrorMessage(ServerSide(status, message));
      |CodePrefix| <= |r| && TextToNat(LeadingDigits(r[|CodePrefix|..])) == status
  {
    var r := ErrorMessage(ServerSide(status, message));
    var digits := NatToText(status);
    var rest := r[|CodePrefix|..];
    assert rest == digits + "\nMensaje: " + message;
    assert rest[|digits|] == '\n';
    LeadingDigitsIs(rest, |digits|);
    assert rest[..|digits|] == digits;
    NatTextRoundTrip(status);
  }

  /** The four fixed messages tell their statuses apart, and none reads like a browser-side error. */
  lemma FixedMessagesDistinct(s1: int, s2: int, m1: string, m2: string, client: string)
    requires s1 in {0, 400, 404, 500} && s2 in {0, 400, 404, 500}
    ensures ErrorMessage(ServerSide(s1, m1)) == ErrorMessage(ServerSide(s2, m2)) <==> s1 == s2
    ensures ErrorMessage(ServerSide(s1, m1)) != ErrorMessage(ClientSide(client))
  {
    var r := ErrorMessage(ServerSide(s1, m1));
    var c := ErrorMessage(ClientSide(client));
    assert c[5] == ':';
    if s1 == 0 {
      assert r[5] == ' ';
    } else if s1 == 400 {
      assert r[5] == 'i';
    } else if s1 == 404 {
      assert r[5] == 's';
    } else {
      assert r[5] == ' ';
    }
  }
}
