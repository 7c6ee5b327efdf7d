/** The stored entities the modelled logic reads: patients, daily sessions and evaluations. */
module Schema {
  import opened Optional

  /** `tipo_paciente` of a patient. */
  datatype TipoPaciente = Particular | ObraSocial

  /** `sentimiento` of a session: how the patient felt. */
  datatype Sentimiento = Verde | Amarillo | Rojo

  /** The stored text of a sentiment. */
  function SentimientoText(s: Sentimiento): string {
    match s
    case Verde => "verde"
    case Amarillo => "amarillo"
    case Rojo => "rojo"
  }

  datatype Paciente = Paciente(
    id: string,
    nombrePaciente: string,
    nombreKinesiologo: string,
    tipoPaciente: TipoPaciente,
    sesionesTotales: int,
    createdAt: Option<string>)

  /** A daily session; `fecha` is `DD-MM-YYYY`, `hora` is `HH:MM`. */
  datatype Sesion = Sesion(
    id: string,
    pacienteId: Option<string>,
    fecha: string,
    hora: string,
    sentimiento: Sentimiento)

  /** One answer of an evaluation form. */
  datatype Response = Response(questionId: string, value: real)

  /**
   * A stored evaluation record. `respuestasComprimidas` is the JSON text of its answers;
   * `None` stands for a missing or non-string value.
   */
  datatype Evaluacion = Evaluacion(id: string, sesionId: string, respuestasComprimidas: Option<string>)
}
