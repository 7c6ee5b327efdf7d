/**
 * The evaluation panel of a patient: the colour band of an average and the one action
 * offered for the latest session, chosen from the evaluation status.
 */
module EvaluationButton {
  import opened Optional
  import opened Schema
  import opened EvaluationStatus

  /** The colour band `getAverageColor` picks for an average on the 0-10 scale. */
  datatype Color = Green | Yellow | Orange | Red

  function AverageColor(avg: real): (c: Color)
    ensures c == Green <==> avg >= 8.0
    ensures c == Yellow <==> 6.0 <= avg < 8.0
    ensures c == Orange <==> 4.0 <= avg < 6.0
    ensures c == Red <==> avg < 4.0
  {
    if avg >= 8.0 then Green
    else if avg >= 6.0 then Yellow
    else if avg >= 4.0 then Orange
    else Red
  }

  /** How far a band is from the best one. */
  function Severity(c: Color): nat {
    match c
    case Green => 0
    case Yellow => 1
    case Orange => 2
    case Red => 3
  }

  /** A higher average never gets a worse band. */
  lemma ColorMonotone(a: real, b: real)
    requires a <= b
    ensures Severity(AverageColor(b)) <= Severity(AverageColor(a))
  {
  }

  /** What the panel shows. */
  datatype View =
    | Loading
    | NoSessions
    | PreLink(href: string)
    | PostLink(href: string)
    | Completed
    | FallbackLink(href: string)

  function EvaluationHref(pacienteId: string, tipo: string): string {
    "/paciente/" + pacienteId + "/evaluacion?tipo=" + tipo
  }

  /**
   * The branch selection of the panel: loading first, then the missing session, then the
   * pre link until the pre evaluation is done, then the post link, the completed button,
   * and a last pre link.
   */
  function Render(st: EvaluationStatus, pacienteId: string): (v: View)
    ensures st.isLoading ==> v == Loading
    ensures !st.isLoading && st.ultimaSesion.None? ==> v == NoSessions
    ensures v == PreLink(EvaluationHref(pacienteId, "pre")) <==> !st.isLoading && st.ultimaSesion.Some? && !st.preCompleted
    ensures v.PostLink? <==> !st.isLoading && st.ultimaSesion.Some? && st.preCompleted && st.canDoPost
    ensures v == PostLink(EvaluationHref(pacienteId, "post")) <==> !st.isLoading && st.ultimaSesion.Some? && st.preCompleted && st.canDoPost
    ensures v == Completed <==> !st.isLoading && st.ultimaSesion.Some? && st.preCompleted && !st.canDoPost && st.postCompleted
  {
    if st.isLoading then Loading
    else if st.ultimaSesion.None? then NoSessions
    else if !st.preCompleted then PreLink(EvaluationHref(pacienteId, "pre"))
    else if st.canDoPost then PostLink(EvaluationHref(pacienteId, "post"))
    else if st.postCompleted then Completed
    else FallbackLink(EvaluationHref(pacienteId, "pre"))
  }

  /** The panel of the status shown while loading is the spinner. */
  lemma LoadingFirst(pacienteId: string)
    ensures Render(LoadingStatus, pacienteId) == Loading
  {
  }

  /**
   * The fallback link is dead code for every status in which `canDoPost` is
   * `preCompleted && !postCompleted`, as the status hook builds it.
   */
  lemma FallbackUnreachable(st: EvaluationStatus, pacienteId: string)
    requires st.canDoPost == (st.preCompleted && !st.postCompleted)
    ensures !Render(st, pacienteId).FallbackLink?
  {
  }

  /**
   * For a resolved status with a latest session, the panel offers the pre evaluation while
   * no record holds pre answers, the post evaluation once one does and none holds post
   * answers, and the completed button when both kinds are present.
   */
  lemma OfferedAction(s: Sesion, evals: seq<Evaluacion>, parse: Parser, pacienteId: string)
    ensures var v := Render(ResolveStatus(Some(s), evals, parse), pacienteId);
      var pre := exists i :: 0 <= i < |evals| && Qualifies(evals[i], parse, PreTag);
      var post := exists i :: 0 <= i < |evals| && Qualifies(evals[i], parse, PostTag);
      (v.PreLink? <==> !pre) && (v.PostLink? <==> pre && !post) && (v.Completed? <==> pre && post)
  {
    CompletedIff(evals, parse, PreTag);
    CompletedIff(evals, parse, PostTag);
  }
}
