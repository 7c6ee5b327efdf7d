/**
 * The evaluation status of a patient's latest session: whether the pre- and the
 * post-session evaluations were completed, their averages on the 0-10 scale, the overall
 * average and whether the post-session evaluation may be started now.
 */
module EvaluationStatus {
  import opened Optional
  import opened Text
  import opened Schema

  /**
   * `JSON.parse` of a record's text followed by the uses the status loop makes of it:
   * `Some(rs)` when the text is an array of well-formed answers, `None` when parsing
   * throws or the value is not such an array.
   */
  type Parser = string -> Option<seq<Response>>

  const PreTag := "_pre"
  const PostTag := "_post"

  /** `responses.reduce((acc, r) => acc + r.value, 0)` */
  function Sum(rs: seq<Response>): real
    decreases |rs|
  {
    if |rs| == 0 then 0.0 else Sum(rs[..|rs| - 1]) + rs[|rs| - 1].value
  }

  /** `Math.round(x)`: the nearest integer, halves rounded towards +infinity. */
  function Round(x: real): int {
    (x + 0.5).Floor
  }

  /** `Math.round(x * 10) / 10` */
  function RoundOneDecimal(x: real): real {
    Round(x * 10.0) as real / 10.0
  }

  /** A value with at most one decimal. */
  predicate OneDecimal(x: real) {
    (x * 10.0).Floor as real == x * 10.0
  }

  /** `calculateAverage`: 0 for no answers, otherwise the mean of every answer rounded to one decimal. */
  function CalculateAverage(rs: seq<Response>): (r: real)
    ensures OneDecimal(r)
  {
    if |rs| == 0 then 0.0 else RoundOneDecimal(Sum(rs) / |rs| as real)
  }

  lemma {:induction false} SumBounds(rs: seq<Response>, lo: real, hi: real)
    requires forall i :: 0 <= i < |rs| ==> lo <= rs[i].value <= hi
    ensures |rs| as real * lo <= Sum(rs) <= |rs| as real * hi
    decreases |rs|
  {
    if |rs| > 0 {
      SumBounds(rs[..|rs| - 1], lo, hi);
    }
  }

  lemma RoundMonotone(x: real, y: real)
    requires x <= y
    ensures Round(x) <= Round(y)
  {
  }

  /** Rounding leaves a whole number unchanged. */
  lemma RoundOneDecimalWhole(k: int)
    ensures RoundOneDecimal(k as real) == k as real
  {
    assert (k as real) * 10.0 + 0.5 == (10 * k) as real + 0.5;
    assert Round(k as real * 10.0) == 10 * k;
  }

  /**
   * When every answer lies between two whole numbers, so does the average: with the
   * sliders' 0-10 answers the average is on the 0-10 scale.
   */
  lemma AverageBounds(rs: seq<Response>, lo: int, hi: int)
    requires |rs| > 0
    requires forall i :: 0 <= i < |rs| ==> lo as real <= rs[i].value <= hi as real
    ensures lo as real <= CalculateAverage(rs) <= hi as real
  {
    var n := |rs| as real;
    SumBounds(rs, lo as real, hi as real);
    var m := Sum(rs) / n;
    assert m * n == Sum(rs);
    assert lo as real <= m <= hi as real;
    RoundMonotone(lo as real * 10.0, m * 10.0);
    RoundMonotone(m * 10.0, hi as real * 10.0);
    RoundOneDecimalWhole(lo);
    RoundOneDecimalWhole(hi);
  }

  /** Averaging answers that all have the same whole value gives that value. */
  lemma AverageOfEqualAnswers(rs: seq<Response>, v: int)
    requires |rs| > 0
    requires forall i :: 0 <= i < |rs| ==> rs[i].value == v as real
    ensures CalculateAverage(rs) == v as real
  {
    AverageBounds(rs, v, v);
  }

  /** `respuestas.some(r => r.questionId.includes(tag))` */
  predicate HasTag(rs: seq<Response>, tag: string) {
    exists i :: 0 <= i < |rs| && Contains(rs[i].questionId, tag)
  }

  /**
   * The answers a record contributes, or `None` when it contributes nothing: its text is
   * missing or empty, starts with neither `[` nor `{`, fails to parse, or holds no answer.
   */
  function Contribution(e: Evaluacion, parse: Parser): (c: Option<seq<Response>>)
    ensures c.Some? ==> |c.value| > 0
    ensures c.Some? <==> e.respuestasComprimidas.Some? && e.respuestasComprimidas.value != ""
                         && (StartsWith(e.respuestasComprimidas.value, "[") || StartsWith(e.respuestasComprimidas.value, "{"))
                         && parse(e.respuestasComprimidas.value).Some? && |parse(e.respuestasComprimidas.value).value| > 0
    ensures c.Some? ==> c.value == parse(e.respuestasComprimidas.value).value
  {
    match e.respuestasComprimidas
    case None => None
    case Some(text) =>
      if text == "" || !(StartsWith(text, "[") || StartsWith(text, "{")) then None
      else
        match parse(text)
        case None => None
        case Some(rs) => if |rs| == 0 then None else Some(rs)
  }

  /** A record that contributes answers carrying `tag` in their question id. */
  predicate Qualifies(e: Evaluacion, parse: Parser, tag: string) {
    Contribution(e, parse).Some? && HasTag(Contribution(e, parse).value, tag)
  }

  /** The locals of the status loop. */
  datatype Tally = Tally(preCompleted: bool, postCompleted: bool, preAverage: Option<real>, postAverage: Option<real>)

  const Initial := Tally(false, false, None, None)

  /** One iteration of the loop over the session's records. */
  function Step(t: Tally, e: Evaluacion, parse: Parser): Tally {
    match Contribution(e, parse)
    case None => t
    case Some(rs) =>
      var pre := HasTag(rs, PreTag);
      var post := HasTag(rs, PostTag);
      Tally(
        t.preCompleted || pre,
        t.postCompleted || post,
        if pre then Some(CalculateAverage(rs)) else t.preAverage,
        if post then Some(CalculateAverage(rs)) else t.postAverage)
  }

  /** The locals after the loop has visited every record, in order. */
  function Scan(evals: seq<Evaluacion>, parse: Parser): Tally
    decreases |evals|
  {
    if |evals| == 0 then Initial else Step(Scan(evals[..|evals| - 1], parse), evals[|evals| - 1], parse)
  }

  function Completed(t: Tally, tag: string): bool {
    if tag == PreTag then t.preCompleted else t.postCompleted
  }

  function AverageOf(t: Tally, tag: string): Option<real> {
    if tag == PreTag then t.preAverage else t.postAverage
  }

  /** `preCompleted` (`postCompleted`) holds iff some contributing record has a `_pre` (`_post`) answer. */
  lemma {:induction false} CompletedIff(evals: seq<Evaluacion>, parse: Parser, tag: string)
    requires tag == PreTag || tag == PostTag
    ensures Completed(Scan(evals, parse), tag) <==> exists i :: 0 <= i < |evals| && Qualifies(evals[i], parse, tag)
    ensures AverageOf(Scan(evals, parse), tag).Some? <==> Completed(Scan(evals, parse), tag)
    decreases |evals|
  {
    if |evals| > 0 {
      var prefix := evals[..|evals| - 1];
      CompletedIff(prefix, parse, tag);
      if exists i :: 0 <= i < |evals| && Qualifies(evals[i], parse, tag) {
        var i :| 0 <= i < |evals| && Qualifies(evals[i], parse, tag);
        if i < |evals| - 1 {
          assert prefix[i] == evals[i];
        }
      }
      if exists i :: 0 <= i < |prefix| && Qualifies(prefix[i], parse, tag) {
        var i :| 0 <= i < |prefix| && Qualifies(prefix[i], parse, tag);
        assert evals[i] == prefix[i];
      }
    }
  }

  /**
   * The average for a tag comes from the last record, in iteration order, that qualifies
   * for that tag: earlier qualifying records are overwritten.
   */
  lemma {:induction false} LastQualifyingAverage(evals: seq<Evaluacion>, parse: Parser, tag: string, k: int)
    requires tag == PreTag || tag == PostTag
    requires 0 <= k < |evals| && Qualifies(evals[k], parse, tag)
    requires forall j :: k < j < |evals| ==> !Qualifies(evals[j], parse, tag)
    ensures AverageOf(Scan(evals, parse), tag) == Some(CalculateAverage(Contribution(evals[k], parse).value))
    decreases |evals|
  {
    if k < |evals| - 1 {
      var prefix := evals[..|evals| - 1];
      forall j | k < j < |prefix| ensures !Qualifies(prefix[j], parse, tag) {
        assert prefix[j] == evals[j];
      }
      LastQualifyingAverage(prefix, parse, tag, k);
    }
  }

  /** When the last record holding pre answers also holds post answers, both averages are that record's average. */
  lemma MergedRecordSameAverage(evals: seq<Evaluacion>, parse: Parser, k: int)
    requires 0 <= k < |evals| && Qualifies(evals[k], parse, PreTag) && Qualifies(evals[k], parse, PostTag)
    requires forall j :: k < j < |evals| ==> Contribution(evals[j], parse).None?
    ensures Scan(evals, parse).preAverage == Scan(evals, parse).postAverage
    ensures Scan(evals, parse).preAverage == Some(CalculateAverage(Contribution(evals[k], parse).value))
  {
    LastQualifyingAverage(evals, parse, PreTag, k);
    LastQualifyingAverage(evals, parse, PostTag, k);
  }

  /** Records that contribute nothing leave the status unchanged wherever they occur. */
  lemma {:induction false} NonContributingIgnored(evals: seq<Evaluacion>, e: Evaluacion, parse: Parser)
    requires Contribution(e, parse).None?
    ensures Scan(evals + [e], parse) == Scan(evals, parse)
  {
    assert (evals + [e])[..|evals|] == evals;
  }

  /** The overall average: the rounded mean of both, or the only one present, or nothing. */
  function Overall(pre: Option<real>, post: Option<real>): (r: Option<real>)
    ensures r.Some? <==> pre.Some? || post.Some?
    ensures pre.Some? && post.None? ==> r == pre
    ensures pre.None? && post.Some? ==> r == post
  {
    if pre.Some? && post.Some? then Some(RoundOneDecimal((pre.value + post.value) / 2.0))
    else if pre.Some? then pre
    else if post.Some? then post
    else None
  }

  function Min(a: real, b: real): real { if a <= b then a else b }
  function Max(a: real, b: real): real { if a <= b then b else a }

  /** The overall average of two one-decimal averages lies between them. */
  lemma OverallBetween(a: real, b: real)
    requires OneDecimal(a) && OneDecimal(b)
    ensures Overall(Some(a), Some(b)).value == RoundOneDecimal((a + b) / 2.0)
    ensures Min(a, b) <= Overall(Some(a), Some(b)).value <= Max(a, b)
  {
    var A, B := (a * 10.0).Floor, (b * 10.0).Floor;
    var x := (a + b) / 2.0 * 10.0;
    assert x == (A + B) as real / 2.0;
    var k := Round(x);
    assert k == ((A + B) as real / 2.0 + 0.5).Floor;
    if A <= B {
      assert A <= k <= B;
    } else {
      assert B <= k <= A;
    }
    assert RoundOneDecimal((a + b) / 2.0) == k as real / 10.0;
    assert a == A as real / 10.0 && b == B as real / 10.0;
  }

  /** A session the status refers to. */
  datatype EvaluationStatus = EvaluationStatus(
    preCompleted: bool,
    postCompleted: bool,
    canDoPost: bool,
    preAverage: Option<real>,
    postAverage: Option<real>,
    overallAverage: Option<real>,
    ultimaSesion: Option<Sesion>,
    isLoading: bool)

  /** The state shown before the first check has finished. */
  const LoadingStatus := EvaluationStatus(false, false, false, None, None, None, None, true)

  /**
   * The status `checkEvaluationStatus` settles on, given the latest session (if any) and
   * that session's evaluation records.
   */
  function ResolveStatus(ultima: Option<Sesion>, evals: seq<Evaluacion>, parse: Parser): (st: EvaluationStatus)
    ensures !st.isLoading && st.ultimaSesion == ultima
    ensures st.canDoPost == (st.preCompleted && !st.postCompleted)
    ensures st.overallAverage == Overall(st.preAverage, st.postAverage)
    ensures ultima.None? ==> !st.preCompleted && !st.postCompleted && !st.canDoPost
                             && st.preAverage.None? && st.postAverage.None? && st.overallAverage.None?
  {
    if ultima.None? then EvaluationStatus(false, false, false, None, None, None, None, false)
    else
      var t := Scan(evals, parse);
      EvaluationStatus(t.preCompleted, t.postCompleted, t.preCompleted && !t.postCompleted,
                       t.preAverage, t.postAverage, Overall(t.preAverage, t.postAverage), ultima, false)
  }

  /**
   * What the two queries of `checkEvaluationStatus` gave: the latest session and, when
   * there is one, its evaluation records; or a rejection of either query.
   */
  datatype Fetch = Fetched(ultima: Option<Sesion>, evals: seq<Evaluacion>) | FetchFailed

  /**
   * `checkEvaluationStatus` from the status shown before it: a rejected query keeps that
   * status and only ends the loading; otherwise the fetched data is resolved.
   */
  method CheckEvaluationStatus(prev: EvaluationStatus, fetch: Fetch, parse: Parser)
    returns (st: EvaluationStatus)
    ensures fetch.FetchFailed? ==> st == prev.(isLoading := false)
    ensures fetch.Fetched? ==> st == ResolveStatus(fetch.ultima, fetch.evals, parse)
    ensures !st.isLoading
  {
    if fetch.FetchFailed? {
      return prev.(isLoading := false);
    }
    var ultima, evals := fetch.ultima, fetch.evals;
    if ultima.None? {
      return EvaluationStatus(false, false, false, None, None, None, None, false);
    }
    var preCompleted, postCompleted := false, false;
    var preAverage: Option<real>, postAverage: Option<real> := None, None;
    for i := 0 to |evals|
      invariant Tally(preCompleted, postCompleted, preAverage, postAverage) == Scan(evals[..i], parse)
    {
      assert evals[..i + 1][..i] == evals[..i];
      var text := evals[i].respuestasComprimidas;
      if text.None? || text.value == "" || (!StartsWith(text.value, "[") && !StartsWith(text.value, "{")) {
        continue;
      }
      var parsed := parse(text.value);
      if parsed.None? {
        continue;
      }
      var respuestas := parsed.value;
      if |respuestas| == 0 {
        continue;
      }
      var tienePre := HasTag(respuestas, PreTag);
      var tienePost := HasTag(respuestas, PostTag);
      if tienePre {
        preCompleted := true;
        preAverage := Some(CalculateAverage(respuestas));
      }
      if tienePost {
        postCompleted := true;
        postAverage := Some(CalculateAverage(respuestas));
      }
    }
    assert evals[..|evals|] == evals;
    var overallAverage: Option<real> := None;
    if preAverage.Some? && postAverage.Some? {
      overallAverage := Some(RoundOneDecimal((preAverage.value + postAverage.value) / 2.0));
    } else if preAverage.Some? {
      overallAverage := preAverage;
    } else if postAverage.Some? {
      overallAverage := postAverage;
    }
    st := EvaluationStatus(preCompleted, postCompleted, preCompleted && !postCompleted,
                           preAverage, postAverage, overallAverage, ultima, false);
  }

  /**
   * Every answer of a record enters its average, the session minutes included: a post
   * record with 45 minutes and a pain score of 3 has post average 24.0.
   */
  lemma MinutesEnterPostAverage(s: Sesion, parse: Parser)
    requires parse("[post]") == Some([Response("minutos_sesion_post", 45.0), Response("eva_post", 3.0)])
    ensures ResolveStatus(Some(s), [Evaluacion("e", s.id, Some("[post]"))], parse).postAverage == Some(24.0)
  {
    var rs := [Response("minutos_sesion_post", 45.0), Response("eva_post", 3.0)];
    var e := Evaluacion("e", s.id, Some("[post]"));
    assert StartsWith("[post]", "[");
    assert Contribution(e, parse) == Some(rs);
    assert Contains(rs[1].questionId, PostTag) by {
      assert "eva_post"[1..][1..][1..] == PostTag;
    }
    assert HasTag(rs, PostTag);
    assert Sum(rs) == 48.0 by {
      assert rs[..1] == [rs[0]];
      assert rs[..1][..0] == [];
    }
    assert RoundOneDecimal(24.0) == 24.0 by {
      RoundOneDecimalWhole(24);
    }
    assert [e][..0] == [];
  }
}
