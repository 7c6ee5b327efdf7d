/**
 * The session edit form: reading the stored `DD-MM-YYYY` date into the date picker, writing
 * a picked date back as text, and the guard of the submission.
 */
module EditSesion {
  import opened Optional
  import opened Text
  import opened Calendar
  import opened Schema

  /** `parseInt(p, 10)` taken as a condition: `NaN` and `0` are false. */
  predicate Truthy(n: Option<int>) {
    n.Some? && n.value != 0
  }

  /**
   * `parseFecha`: exactly three `-`-separated parts whose `parseInt` values are all
   * non-zero numbers, with a year strictly between 1900 and 2100.
   */
  function ParseFecha(s: string): (r: Option<Date>)
    ensures |Split(s, '-')| != 3 ==> r.None?
    ensures r.Some? ==> 1900 < r.value.year < 2100 && r.value.month != 0 && r.value.day != 0
    ensures r.Some? ==> var parts := Split(s, '-');
      ParseInt(parts[0]) == Some(r.value.day) && ParseInt(parts[1]) == Some(r.value.month)
      && ParseInt(parts[2]) == Some(r.value.year)
  {
    var parts := Split(s, '-');
    if |parts| == 3 then
      var day := ParseInt(parts[0]);
      var month := ParseInt(parts[1]);
      var year := ParseInt(parts[2]);
      if Truthy(day) && Truthy(month) && Truthy(year) && year.value > 1900 && year.value < 2100 then
        Some(Date(year.value, month.value, day.value))
      else None
    else None
  }

  /** `parseInt` reads back a padded day or month. */
  lemma ParsePad2(n: nat)
    ensures ParseInt(Pad2(n)) == Some(n)
  {
    Pad2Digits(n);
    ParseIntDigits(Pad2(n));
  }

  /** The date written by the picker reads back as the same date when its year is in (1900, 2100). */
  lemma FormatParseRoundTrip(d: Date)
    requires Valid(d) && 1900 < d.year < 2100
    ensures ParseFecha(FormatDmy(d)) == Some(d)
  {
    FormatParts(d);
  }

  /** A year outside (1900, 2100) is refused even when the text is a well-formed date. */
  lemma OutOfRangeYearRefused(d: Date)
    requires Valid(d) && d.year >= 0 && !(1900 < d.year < 2100)
    ensures ParseFecha(FormatDmy(d)).None?
  {
    FormatParts(d);
  }

  /** A formatted date is read by `parseFecha` exactly as its fields, under the guard on them. */
  lemma FormatParts(d: Date)
    requires d.day >= 0 && d.month >= 0 && d.year >= 0
    ensures ParseFecha(FormatDmy(d)) ==
              if d.day != 0 && d.month != 0 && 1900 < d.year < 2100 then Some(d) else None
  {
    FormatDmySplit(d);
    ParsePad2(d.day);
    ParsePad2(d.month);
    ParseYear(d.year);
    ParseFechaOf(FormatDmy(d), Pad2(d.day), Pad2(d.month), IntToString(d.year), d.day, d.month, d.year);
  }

  /** Three parts that parse as numbers are guarded and read as day, month and year. */
  lemma ParseFechaOf(s: string, a: string, b: string, c: string, day: int, month: int, year: int)
    requires Split(s, '-') == [a, b, c]
    requires ParseInt(a) == Some(day) && ParseInt(b) == Some(month) && ParseInt(c) == Some(year)
    ensures ParseFecha(s) ==
              if day != 0 && month != 0 && 1900 < year < 2100 then Some(Date(year, month, day)) else None
  {
  }

  /** `parseInt` reads back a written year. */
  lemma ParseYear(y: nat)
    ensures ParseInt(IntToString(y)) == Some(y)
  {
    ParseIntDigits(NatToString(y));
    DigitsRoundTrip(y);
  }

  /** The date fields of the form: the picker's date and the text that is submitted. */
  datatype DateFields = DateFields(selectedDate: Option<Date>, fecha: string)

  /** The state the form starts in for a stored session: its text, and the picker's reading of it. */
  function InitialFields(sesion: Sesion): (r: DateFields)
    ensures r.fecha == sesion.fecha
    ensures r.selectedDate.Some? ==> 1900 < r.selectedDate.value.year < 2100
  {
    DateFields(ParseFecha(sesion.fecha), sesion.fecha)
  }

  /** A session stored with a date the picker wrote opens with that date picked. */
  lemma InitialFieldsOfPickedDate(sesion: Sesion, d: Date)
    requires Valid(d) && 1900 < d.year < 2100 && sesion.fecha == FormatDmy(d)
    ensures InitialFields(sesion).selectedDate == Some(d)
  {
    FormatParseRoundTrip(d);
  }

  /**
   * `handleDateChange`: the picker always takes the date; the text changes only when a
   * date was picked, and then reads back as that date.
   */
  function HandleDateChange(f: DateFields, date: Option<Date>): (r: DateFields)
    ensures r.selectedDate == date
    ensures date.None? ==> r.fecha == f.fecha
    ensures date.Some? ==> r.fecha == FormatDmy(date.value)
    ensures date.Some? && Valid(date.value) && 1900 < date.value.year < 2100 ==> ParseFecha(r.fecha) == date
  {
    if date.Some? then
      var d := date.value;
      assert Valid(d) && 1900 < d.year < 2100 ==> ParseFecha(FormatDmy(d)) == Some(d) by {
        if Valid(d) && 1900 < d.year < 2100 {
          FormatParseRoundTrip(d);
        }
      }
      DateFields(date, FormatDmy(d))
    else DateFields(None, f.fecha)
  }

  /** The fields sent to `updateSesionDiaria`. */
  datatype SessionUpdate = SessionUpdate(sesionId: string, pacienteId: string, fecha: string, hora: string, sentimiento: string)

  /** `handleSubmit`: no update without a patient id; otherwise the form's current fields. */
  function HandleSubmit(sesion: Sesion, f: DateFields, hora: string, sentimiento: string): (r: Option<SessionUpdate>)
    ensures r.None? <==> sesion.pacienteId.None? || sesion.pacienteId.value == ""
    ensures r.Some? ==> r.value.sesionId == sesion.id && r.value.pacienteId == sesion.pacienteId.value
                        && r.value.fecha == f.fecha && r.value.hora == hora && r.value.sentimiento == sentimiento
  {
    if sesion.pacienteId.None? || sesion.pacienteId.value == "" then None
    else Some(SessionUpdate(sesion.id, sesion.pacienteId.value, f.fecha, hora, sentimiento))
  }

  /** Submitting without changing the date sends the stored date text unchanged. */
  lemma UnchangedDateResubmitted(sesion: Sesion, hora: string, sentimiento: string)
    requires sesion.pacienteId.Some? && sesion.pacienteId.value != ""
    ensures HandleSubmit(sesion, HandleDateChange(InitialFields(sesion), None), hora, sentimiento).value.fecha == sesion.fecha
  {
  }
}
