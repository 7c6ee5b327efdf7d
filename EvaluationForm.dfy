/**
 * The pre- and post-session evaluation wizard: the two question tables, the step counter,
 * the answers kept by question id, the answer list that is submitted, the per-category
 * summary stored beside it, and the check for an evaluation of the same kind that the
 * session already has.
 */
module EvaluationForm {
  import opened Optional
  import opened Text
  import opened Schema
  import opened Calendar
  import EvaluationStatus

  datatype EvaluationType = Pre | Post

  /** A question of the wizard; its wording is display text and not modelled. */
  datatype Question = Question(id: string)

  const MinutesId := "minutos_sesion_post"

  const PreQuestions := [Question("stress_pre"), Question("sueno_pre"), Question("fatiga_pre"), Question("dolor_muscular_pre")]

  const PostQuestions := [Question("percepcion_esfuerzo_post"), Question("eva_post"), Question(MinutesId)]

  function QuestionsFor(t: EvaluationType): seq<Question> {
    if t == Pre then PreQuestions else PostQuestions
  }

  /** The suffix that marks the answers of an evaluation type. */
  function TagOf(t: EvaluationType): string {
    if t == Pre then EvaluationStatus.PreTag else EvaluationStatus.PostTag
  }

  function ErrorTag(t: EvaluationType): string {
    if t == Pre then EvaluationStatus.PostTag else EvaluationStatus.PreTag
  }

  /** The slider value shown for a question not answered yet: 0 minutes, 5 on every 0-10 scale. */
  function DefaultValue(id: string): (v: real)
    ensures v == 0.0 <==> id == MinutesId
    ensures v != 0.0 ==> v == 5.0
  {
    if id == MinutesId then 0.0 else 5.0
  }

  /** `rs.findIndex(r => r.questionId === id)`: the first index holding `id`, or -1. */
  function FindIndex(rs: seq<Response>, id: string): (k: int)
    ensures -1 <= k < |rs|
    ensures k >= 0 ==> rs[k].questionId == id
    ensures forall j :: 0 <= j < |rs| && (k < 0 || j < k) ==> rs[j].questionId != id
    decreases |rs|
  {
    if |rs| == 0 then -1
    else if rs[0].questionId == id then 0
    else
      var k := FindIndex(rs[1..], id);
      if k < 0 then -1 else k + 1
  }

  /** `rs.find(r => r.questionId === id)?.value` */
  function Lookup(rs: seq<Response>, id: string): Option<real> {
    var k := FindIndex(rs, id);
    if k < 0 then None else Some(rs[k].value)
  }

  /** The stored value for a question, or its default. */
  function ValueOrDefault(rs: seq<Response>, id: string): real {
    Lookup(rs, id).GetOr(DefaultValue(id))
  }

  /** No two answers share a question id. */
  predicate UniqueIds(rs: seq<Response>) {
    forall i, j :: 0 <= i < j < |rs| ==> rs[i].questionId != rs[j].questionId
  }

  /** `updateResponse`'s new list: the entry for `id` gets `v`, or an entry is appended. */
  function Upsert(rs: seq<Response>, id: string, v: real): seq<Response> {
    var k := FindIndex(rs, id);
    if k >= 0 then rs[k := Response(id, v)] else rs + [Response(id, v)]
  }

  /** The first index of `id` follows from the entry there and the entries before it. */
  lemma FindIndexAt(rs: seq<Response>, id: string, k: int)
    requires 0 <= k < |rs| && rs[k].questionId == id
    requires forall j :: 0 <= j < k ==> rs[j].questionId != id
    ensures FindIndex(rs, id) == k
  {
  }

  /** After an upsert `id` holds the new value and every other id keeps its value. */
  lemma UpsertLookup(rs: seq<Response>, id: string, v: real, other: string)
    ensures Lookup(Upsert(rs, id, v), other) == if other == id then Some(v) else Lookup(rs, other)
  {
    var k := FindIndex(rs, id);
    var u := Upsert(rs, id, v);
    var m := FindIndex(rs, other);
    if other == id {
      if k >= 0 {
        FindIndexAt(u, id, k);
      } else {
        FindIndexAt(u, id, |rs|);
      }
    } else if m >= 0 {
      assert u[m] == rs[m];
      FindIndexAt(u, other, m);
    } else {
      assert forall j :: 0 <= j < |u| ==> u[j].questionId != other by {
        forall j | 0 <= j < |u| ensures u[j].questionId != other {
          if j < |rs| && j != k {
            assert u[j] == rs[j];
          }
        }
      }
      assert FindIndex(u, other) < 0;
    }
  }

  /** An upsert keeps question ids unique, and grows the list only for a new id. */
  lemma UpsertShape(rs: seq<Response>, id: string, v: real)
    requires UniqueIds(rs)
    ensures UniqueIds(Upsert(rs, id, v))
    ensures |Upsert(rs, id, v)| == if Lookup(rs, id).Some? then |rs| else |rs| + 1
    ensures forall i :: 0 <= i < |rs| && rs[i].questionId != id ==> Upsert(rs, id, v)[i] == rs[i]
  {
  }

  /**
   * `respuestasCompletas`: one answer per question, in question order, carrying the stored
   * value or the question's default.
   */
  function CompleteAnswers(qs: seq<Question>, rs: seq<Response>): (r: seq<Response>)
    ensures |r| == |qs|
    ensures forall i :: 0 <= i < |qs| ==> r[i].questionId == qs[i].id
    ensures forall i :: 0 <= i < |qs| ==> r[i].value == ValueOrDefault(rs, qs[i].id)
    decreases |qs|
  {
    if |qs| == 0 then []
    else
      var k := FindIndex(rs, qs[0].id);
      [if k >= 0 then rs[k] else Response(qs[0].id, DefaultValue(qs[0].id))] + CompleteAnswers(qs[1..], rs)
  }

  predicate UniqueQuestions(qs: seq<Question>) {
    forall i, j :: 0 <= i < j < |qs| ==> qs[i].id != qs[j].id
  }

  /** Completing an already complete answer list changes nothing. */
  lemma {:induction false} CompleteAnswersIdempotent(qs: seq<Question>, rs: seq<Response>)
    requires UniqueQuestions(qs)
    ensures CompleteAnswers(qs, CompleteAnswers(qs, rs)) == CompleteAnswers(qs, rs)
  {
    var c := CompleteAnswers(qs, rs);
    var cc := CompleteAnswers(qs, c);
    forall i | 0 <= i < |qs| ensures cc[i] == c[i] {
      FindIndexAt(c, qs[i].id, i);
    }
  }

  /** The summary field `calcularPromedios` assigns an answer to. */
  datatype Category = Stress | Sueno | Fatiga | DolorMuscular | PercepcionEsfuerzo | Eva | MinutosSesion

  /** The substring that selects a category. */
  function Key(c: Category): string {
    match c
    case Stress => "stress"
    case Sueno => "sueno"
    case Fatiga => "fatiga"
    case DolorMuscular => "dolor_muscular"
    case PercepcionEsfuerzo => "percepcion_esfuerzo"
    case Eva => "eva"
    case MinutosSesion => "minutos_sesion"
  }

  /** The position of a category's test in the if-chain. */
  function Rank(c: Category): nat {
    match c
    case Stress => 0
    case Sueno => 1
    case Fatiga => 2
    case DolorMuscular => 3
    case PercepcionEsfuerzo => 4
    case Eva => 5
    case MinutosSesion => 6
  }

  /** The first category, in the if-chain's order, whose key the question id contains. */
  function CategoryOf(id: string): (r: Option<Category>)
    ensures r.Some? ==> Contains(id, Key(r.value))
    ensures r.Some? ==> forall c :: Rank(c) < Rank(r.value) ==> !Contains(id, Key(c))
    ensures r.None? ==> forall c :: !Contains(id, Key(c))
  {
    if Contains(id, "stress") then Some(Stress)
    else if Contains(id, "sueno") then Some(Sueno)
    else if Contains(id, "fatiga") then Some(Fatiga)
    else if Contains(id, "dolor_muscular") then Some(DolorMuscular)
    else if Contains(id, "percepcion_esfuerzo") then Some(PercepcionEsfuerzo)
    else if Contains(id, "eva") then Some(Eva)
    else if Contains(id, "minutos_sesion") then Some(MinutosSesion)
    else None
  }

  /** The object `calcularPromedios` returns. */
  datatype Promedios = Promedios(
    stress: real,
    sueno: real,
    fatiga: real,
    dolorMuscular: real,
    percepcionEsfuerzo: real,
    eva: real,
    minutosSesion: real)

  const ZeroPromedios := Promedios(0.0, 0.0, 0.0, 0.0, 0.0, 0.0, 0.0)

  function Field(p: Promedios, c: Category): real {
    match c
    case Stress => p.stress
    case Sueno => p.sueno
    case Fatiga => p.fatiga
    case DolorMuscular => p.dolorMuscular
    case PercepcionEsfuerzo => p.percepcionEsfuerzo
    case Eva => p.eva
    case MinutosSesion => p.minutosSesion
  }

  /** Assigning one field leaves the other six as they were. */
  function WithField(p: Promedios, c: Category, v: real): (q: Promedios)
    ensures forall d :: Field(q, d) == if d == c then v else Field(p, d)
  {
    match c
    case Stress => p.(stress := v)
    case Sueno => p.(sueno := v)
    case Fatiga => p.(fatiga := v)
    case DolorMuscular => p.(dolorMuscular := v)
    case PercepcionEsfuerzo => p.(percepcionEsfuerzo := v)
    case Eva => p.(eva := v)
    case MinutosSesion => p.(minutosSesion := v)
  }

  /** One iteration of the `forEach`: the answer's category, if any, takes its value. */
  function Assign(p: Promedios, r: Response): Promedios {
    match CategoryOf(r.questionId)
    case None => p
    case Some(c) => WithField(p, c, r.value)
  }

  /** The summary after visiting every answer in order. */
  function PromediosOf(rs: seq<Response>): Promedios
    decreases |rs|
  {
    if |rs| == 0 then ZeroPromedios else Assign(PromediosOf(rs[..|rs| - 1]), rs[|rs| - 1])
  }

  /** `calcularPromedios(respuestas)` */
  method CalcularPromedios(rs: seq<Response>) returns (p: Promedios)
    ensures p == PromediosOf(rs)
  {
    p := ZeroPromedios;
    for i := 0 to |rs|
      invariant p == PromediosOf(rs[..i])
    {
      assert rs[..i + 1][..i] == rs[..i];
      var id := rs[i].questionId;
      if Contains(id, "stress") {
        p := p.(stress := rs[i].value);
      } else if Contains(id, "sueno") {
        p := p.(sueno := rs[i].value);
      } else if Contains(id, "fatiga") {
        p := p.(fatiga := rs[i].value);
      } else if Contains(id, "dolor_muscular") {
        p := p.(dolorMuscular := rs[i].value);
      } else if Contains(id, "percepcion_esfuerzo") {
        p := p.(percepcionEsfuerzo := rs[i].value);
      } else if Contains(id, "eva") {
        p := p.(eva := rs[i].value);
      } else if Contains(id, "minutos_sesion") {
        p := p.(minutosSesion := rs[i].value);
      }
    }
    assert rs[..|rs|] == rs;
  }

  /** A field holds the value of the last answer of its category: later answers overwrite earlier ones. */
  lemma {:induction false} FieldIsLastMatching(rs: seq<Response>, c: Category, k: int)
    requires 0 <= k < |rs| && CategoryOf(rs[k].questionId) == Some(c)
    requires forall j :: k < j < |rs| ==> CategoryOf(rs[j].questionId) != Some(c)
    ensures Field(PromediosOf(rs), c) == rs[k].value
    decreases |rs|
  {
    if k < |rs| - 1 {
      var prefix := rs[..|rs| - 1];
      forall j | k < j < |prefix| ensures CategoryOf(prefix[j].questionId) != Some(c) {
        assert prefix[j] == rs[j];
      }
      FieldIsLastMatching(prefix, c, k);
    }
  }

  /** A field no answer maps to keeps its initial 0. */
  lemma {:induction false} FieldZeroWhenUnmatched(rs: seq<Response>, c: Category)
    requires forall j :: 0 <= j < |rs| ==> CategoryOf(rs[j].questionId) != Some(c)
    ensures Field(PromediosOf(rs), c) == 0.0
    decreases |rs|
  {
    if |rs| > 0 {
      var prefix := rs[..|rs| - 1];
      forall j | 0 <= j < |prefix| ensures CategoryOf(prefix[j].questionId) != Some(c) {
        assert prefix[j] == rs[j];
      }
      FieldZeroWhenUnmatched(prefix, c);
    }
  }

  /** Answers whose id matches no key leave the summary unchanged. */
  lemma UnmatchedIgnored(rs: seq<Response>, r: Response)
    requires CategoryOf(r.questionId).None?
    ensures PromediosOf(rs + [r]) == PromediosOf(rs)
  {
    assert (rs + [r])[..|rs|] == rs;
  }

  /** An id made of a stem and `tag` carries `tag`, and lacks `other` when it lacks one of its characters. */
  lemma StemTagged(stem: string, tag: string, other: string, c: char)
    requires c in other && c !in stem + tag
    ensures Contains(stem + tag, tag) && !Contains(stem + tag, other)
  {
    ContainsSuffix(stem, tag);
    MissingCharNotContained(stem + tag, other, c);
  }

  lemma StressTagged()
    ensures Contains("stress_pre", EvaluationStatus.PreTag) && !Contains("stress_pre", EvaluationStatus.PostTag)
  {
    assert "stress" + "_pre" == "stress_pre";
    assert 'o' !in "stress_pre";
    StemTagged("stress", "_pre", "_post", 'o');
  }

  lemma SuenoTagged()
    ensures Contains("sueno_pre", EvaluationStatus.PreTag) && !Contains("sueno_pre", EvaluationStatus.PostTag)
  {
    assert "sueno" + "_pre" == "sueno_pre";
    assert 't' !in "sueno_pre";
    StemTagged("sueno", "_pre", "_post", 't');
  }

  lemma FatigaTagged()
    ensures Contains("fatiga_pre", EvaluationStatus.PreTag) && !Contains("fatiga_pre", EvaluationStatus.PostTag)
  {
    assert "fatiga" + "_pre" == "fatiga_pre";
    assert 'o' !in "fatiga_pre";
    StemTagged("fatiga", "_pre", "_post", 'o');
  }

  lemma DolorTagged()
    ensures Contains("dolor_muscular_pre", EvaluationStatus.PreTag) && !Contains("dolor_muscular_pre", EvaluationStatus.PostTag)
  {
    assert "dolor_muscular" + "_pre" == "dolor_muscular_pre";
    assert 't' !in "dolor_muscular_pre";
    StemTagged("dolor_muscular", "_pre", "_post", 't');
  }

  lemma EvaTagged()
    ensures Contains("eva_post", EvaluationStatus.PostTag) && !Contains("eva_post", EvaluationStatus.PreTag)
  {
    assert "eva" + "_post" == "eva_post";
    assert 'r' !in "eva_post";
    StemTagged("eva", "_post", "_pre", 'r');
  }

  lemma MinutosTagged()
    ensures Contains(MinutesId, EvaluationStatus.PostTag) && !Contains(MinutesId, EvaluationStatus.PreTag)
  {
    assert "minutos_sesion" + "_post" == MinutesId;
    assert 'r' !in MinutesId;
    StemTagged("minutos_sesion", "_post", "_pre", 'r');
  }

  /** Every pre question id carries `_pre` and not `_post`. */
  lemma PreIdsTagged(i: int)
    requires 0 <= i < |PreQuestions|
    ensures Contains(PreQuestions[i].id, EvaluationStatus.PreTag)
    ensures !Contains(PreQuestions[i].id, EvaluationStatus.PostTag)
  {
    var id := PreQuestions[i].id;
    if i == 0 {
      assert id == "stress_pre";
      StressTagged();
    } else if i == 1 {
      assert id == "sueno_pre";
      SuenoTagged();
    } else if i == 2 {
      assert id == "fatiga_pre";
      FatigaTagged();
    } else {
      assert id == "dolor_muscular_pre";
      DolorTagged();
    }
  }

  lemma NoPreInEsfuerzo()
    ensures Contains("percepcion_esfuerzo_post", EvaluationStatus.PreTag) ==> Contains("_esfuerzo_post", EvaluationStatus.PreTag)
  {
    var a, b := "percepcion", "_esfuerzo_post";
    assert a + b == "percepcion_esfuerzo_post";
    SkipPrefix(a, b, EvaluationStatus.PreTag);
  }

  lemma NoPreInEsfuerzoTail()
    ensures !Contains("_esfuerzo_post", EvaluationStatus.PreTag)
  {
    var pre := EvaluationStatus.PreTag;
    MismatchAt("_esfuerzo_post", pre, 1);
    assert "_esfuerzo_post"[1..] == "esfuerzo_post";
    var a, b := "esfuerzo", "_post";
    assert a + b == "esfuerzo_post";
    SkipPrefix(a, b, pre);
    MismatchAt(b, pre, 2);
    assert b[1..] == "post";
    MissingCharNotContained("post", pre, '_');
  }

  /** Every post question id carries `_post` and not `_pre`. */
  lemma PostIdsTagged(i: int)
    requires 0 <= i < |PostQuestions|
    ensures Contains(PostQuestions[i].id, EvaluationStatus.PostTag)
    ensures !Contains(PostQuestions[i].id, EvaluationStatus.PreTag)
  {
    var post := EvaluationStatus.PostTag;
    if i == 0 {
      assert "percepcion_esfuerzo" + post == "percepcion_esfuerzo_post";
      ContainsSuffix("percepcion_esfuerzo", post);
      NoPreInEsfuerzo();
      NoPreInEsfuerzoTail();
    } else if i == 1 {
      EvaTagged();
    } else {
      MinutosTagged();
    }
  }

  /** The answers of a finished form carry its own type's tag and never the other one. */
  lemma SubmittedAnswersTagged(t: EvaluationType, rs: seq<Response>)
    ensures EvaluationStatus.HasTag(CompleteAnswers(QuestionsFor(t), rs), TagOf(t))
    ensures !EvaluationStatus.HasTag(CompleteAnswers(QuestionsFor(t), rs), ErrorTag(t))
  {
    var qs := QuestionsFor(t);
    var c := CompleteAnswers(qs, rs);
    if t == Pre {
      PreIdsTagged(0);
      forall i | 0 <= i < |c| ensures !Contains(c[i].questionId, ErrorTag(t)) {
        PreIdsTagged(i);
      }
    } else {
      PostIdsTagged(0);
      forall i | 0 <= i < |c| ensures !Contains(c[i].questionId, ErrorTag(t)) {
        PostIdsTagged(i);
      }
    }
    assert Contains(c[0].questionId, TagOf(t));
  }

  /**
   * A stored form whose text parses back to the submitted answers is classified by the
   * status loop as an evaluation of the form's own type only.
   */
  lemma SubmittedRecordClassified(t: EvaluationType, rs: seq<Response>, e: Evaluacion, parse: EvaluationStatus.Parser)
    requires e.respuestasComprimidas.Some? && StartsWith(e.respuestasComprimidas.value, "[")
    requires parse(e.respuestasComprimidas.value) == Some(CompleteAnswers(QuestionsFor(t), rs))
    ensures EvaluationStatus.Qualifies(e, parse, TagOf(t))
    ensures !EvaluationStatus.Qualifies(e, parse, ErrorTag(t))
  {
    SubmittedAnswersTagged(t, rs);
  }

  /** How loading the existing evaluations ends: a warning, none, or the load error. */
  datatype LoadCheck = Warn | NoWarn | LoadFailed

  /**
   * `evaluaciones.find(...)` over the session's records: the first record whose answers
   * carry `tag` raises the warning; a record reached before that whose text is missing or
   * does not parse to an answer array throws, and loading fails.
   */
  function ExistingCheck(evals: seq<Evaluacion>, tag: string, parse: EvaluationStatus.Parser): (r: LoadCheck)
    ensures r == Warn ==> exists i :: 0 <= i < |evals| && evals[i].respuestasComprimidas.Some?
                            && parse(evals[i].respuestasComprimidas.value).Some?
                            && EvaluationStatus.HasTag(parse(evals[i].respuestasComprimidas.value).value, tag)
    decreases |evals|
  {
    if |evals| == 0 then NoWarn
    else
      match evals[0].respuestasComprimidas
      case None => LoadFailed
      case Some(text) =>
        match parse(text)
        case None => LoadFailed
        case Some(rs) =>
          if EvaluationStatus.HasTag(rs, tag) then Warn
          else
            var r := ExistingCheck(evals[1..], tag, parse);
            assert r == Warn ==> evals[1..][0].respuestasComprimidas == evals[1].respuestasComprimidas;
            r
  }

  /** Every record's text parses to an answer array. */
  predicate AllParse(evals: seq<Evaluacion>, parse: EvaluationStatus.Parser) {
    forall i :: 0 <= i < |evals| ==> evals[i].respuestasComprimidas.Some? && parse(evals[i].respuestasComprimidas.value).Some?
  }

  /** When every record parses, the warning fires exactly when some record carries the type's tag. */
  lemma {:induction false} ExistingCheckIff(evals: seq<Evaluacion>, tag: string, parse: EvaluationStatus.Parser)
    requires AllParse(evals, parse)
    ensures ExistingCheck(evals, tag, parse) != LoadFailed
    ensures ExistingCheck(evals, tag, parse) == Warn <==>
              exists i :: 0 <= i < |evals| && EvaluationStatus.HasTag(parse(evals[i].respuestasComprimidas.value).value, tag)
    decreases |evals|
  {
    if |evals| > 0 {
      var tail := evals[1..];
      assert AllParse(tail, parse) by {
        forall i | 0 <= i < |tail| ensures tail[i].respuestasComprimidas.Some? && parse(tail[i].respuestasComprimidas.value).Some? {
          assert tail[i] == evals[i + 1];
        }
      }
      ExistingCheckIff(tail, tag, parse);
      if exists i :: 0 <= i < |tail| && EvaluationStatus.HasTag(parse(tail[i].respuestasComprimidas.value).value, tag) {
        var i :| 0 <= i < |tail| && EvaluationStatus.HasTag(parse(tail[i].respuestasComprimidas.value).value, tag);
        assert tail[i] == evals[i + 1];
      }
      if exists i :: 0 <= i < |evals| && EvaluationStatus.HasTag(parse(evals[i].respuestasComprimidas.value).value, tag) {
        var i :| 0 <= i < |evals| && EvaluationStatus.HasTag(parse(evals[i].respuestasComprimidas.value).value, tag);
        if i > 0 {
          assert tail[i - 1] == evals[i];
        }
      }
    }
  }

  /** What a submission sends: the patient, the session, the complete answers and their summary. */
  datatype Submission = Submission(pacienteId: string, sesionId: string, fecha: string, respuestas: seq<Response>, promedios: Promedios)

  /** The wizard's state: the current step and the answers given so far. */
  class EvaluationWizard {
    const pacienteId: string
    const evaluationType: EvaluationType
    const questions: seq<Question>
    var currentStep: nat
    var responses: seq<Response>

    ghost predicate Valid()
      reads this
    {
      questions == QuestionsFor(evaluationType)
      && currentStep < |questions|
      && UniqueIds(responses)
    }

    constructor (pacienteId: string, evaluationType: EvaluationType)
      ensures Valid()
      ensures this.pacienteId == pacienteId && this.evaluationType == evaluationType
      ensures currentStep == 0 && responses == []
    {
      this.pacienteId := pacienteId;
      this.evaluationType := evaluationType;
      questions := QuestionsFor(evaluationType);
      currentStep := 0;
      responses := [];
    }

    function CurrentId(): string
      reads this
      requires Valid()
    {
      questions[currentStep].id
    }

    /** `getCurrentResponse`: the stored answer to the current question, or its default. */
    function GetCurrentResponse(): (v: real)
      reads this
      requires Valid()
      ensures Lookup(responses, CurrentId()).Some? ==> v == Lookup(responses, CurrentId()).value
      ensures Lookup(responses, CurrentId()).None? ==> v == (if CurrentId() == MinutesId then 0.0 else 5.0)
    {
      ValueOrDefault(responses, CurrentId())
    }

    /** `updateResponse(value)`: upsert the current question's answer. */
    method UpdateResponse(value: real)
      requires Valid()
      modifies this
      ensures Valid()
      ensures currentStep == old(currentStep)
      ensures responses == Upsert(old(responses), CurrentId(), value)
      ensures GetCurrentResponse() == value
      ensures forall id :: id != CurrentId() ==> Lookup(responses, id) == old(Lookup(responses, id))
    {
      var id := questions[currentStep].id;
      var existing := FindIndex(responses, id);
      if existing >= 0 {
        responses := responses[existing := Response(id, value)];
      } else {
        responses := responses + [Response(id, value)];
      }
      UpsertShape(old(responses), id, value);
      UpsertLookup(old(responses), id, value, id);
      forall other | other != id ensures Lookup(responses, other) == Lookup(old(responses), other) {
        UpsertLookup(old(responses), id, value, other);
      }
    }

    /** `goToNext`: advance unless on the last step. */
    method GoToNext()
      requires Valid()
      modifies this
      ensures Valid()
      ensures currentStep == if old(currentStep) < |questions| - 1 then old(currentStep) + 1 else old(currentStep)
      ensures responses == old(responses)
    {
      if currentStep < |questions| - 1 {
        currentStep := currentStep + 1;
      }
    }

    /** `goToPrevious`: go back unless on the first step. */
    method GoToPrevious()
      requires Valid()
      modifies this
      ensures Valid()
      ensures currentStep == if old(currentStep) > 0 then old(currentStep) - 1 else old(currentStep)
      ensures responses == old(responses)
    {
      if currentStep > 0 {
        currentStep := currentStep - 1;
      }
    }

    /**
     * `handleSubmit`: nothing without a session; otherwise the complete answers in question
     * order, tagged with the form's type, and their summary, dated `yyyy-MM-dd` by the
     * clock's UTC day `today`.
     */
    method HandleSubmit(ultimaSesion: Option<Sesion>, today: Date) returns (sub: Option<Submission>)
      requires Valid()
      ensures ultimaSesion.None? ==> sub.None?
      ensures ultimaSesion.Some? ==> sub.Some? && sub.value.pacienteId == pacienteId && sub.value.sesionId == ultimaSesion.value.id
      ensures sub.Some? ==> sub.value.fecha == FormatIso(today)
      ensures sub.Some? ==> sub.value.respuestas == CompleteAnswers(questions, responses)
      ensures sub.Some? ==> sub.value.promedios == PromediosOf(sub.value.respuestas)
      ensures sub.Some? ==> EvaluationStatus.HasTag(sub.value.respuestas, TagOf(evaluationType))
                            && !EvaluationStatus.HasTag(sub.value.respuestas, ErrorTag(evaluationType))
    {
      if ultimaSesion.None? {
        return None;
      }
      var respuestasCompletas := CompleteAnswers(questions, responses);
      var promedios := CalcularPromedios(respuestasCompletas);
      SubmittedAnswersTagged(evaluationType, responses);
      var fecha := FormatIso(today);
      sub := Some(Submission(pacienteId, ultimaSesion.value.id, fecha, respuestasCompletas, promedios));
    }
  }
}
