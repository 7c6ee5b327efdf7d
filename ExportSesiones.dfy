/**
 * The spreadsheet export of the sessions in a date range: the request check, and the
 * rows of the two sheets, "Sesiones por D\U{ED}a" (one block per day) and "Resumen" (one
 * line per day with the count of each sentiment). Writing the XLSX file is not modelled.
 */
module ExportSesiones {
  import opened Optional
  import opened Text
  import opened Actions

  /** A spreadsheet cell. */
  datatype Cell = Str(s: string) | Num(n: int)

  type Sheet = seq<seq<Cell>>

  /** The answer of the export endpoint. */
  datatype ExportResponse =
    | Failure(status: int, error: string)
    | Workbook(main: Sheet, resumen: Sheet, fileName: string)

  const Blank: seq<Cell> := [Str("")]

  const NoSessionsRow: seq<Cell> := [Str("No hay sesiones registradas para este d\U{ED}a"), Str(""), Str("")]

  const HeaderRow: seq<Cell> := [Str("NOMBRE"), Str("COLOR"), Str("HORA")]

  /** The six rows that open the main sheet. */
  function MainPreamble(startDate: string, endDate: string, total: int, dias: int): Sheet {
    [[Str("SESIONES POR D\U{CD}A")],
     Blank,
     [Str("Rango de fechas:"), Str(startDate + " - " + endDate)],
     [Str("Total de sesiones:"), Num(total)],
     [Str("D\U{ED}as con sesiones:"), Num(dias)],
     Blank]
  }

  /** The seven rows that open the summary sheet, the last one its column headers. */
  function ResumenPreamble(startDate: string, endDate: string, total: int, dias: int): Sheet {
    [[Str("RESUMEN DE SESIONES")],
     Blank,
     [Str("Rango de fechas:"), Str(startDate + " - " + endDate)],
     [Str("Total de sesiones:"), Num(total)],
     [Str("D\U{ED}as con sesiones:"), Num(dias)],
     Blank,
     [Str("FECHA"), Str("TOTAL SESIONES"), Str("VERDE"), Str("AMARILLO"), Str("ROJO")]]
  }

  /** `sesionesPorDia[fechaStr] || []` */
  function SessionsOf(data: map<string, seq<SesionRow>>, fecha: string): seq<SesionRow> {
    if fecha in data then data[fecha] else []
  }

  /** The row of one session: patient, upper-cased sentiment, time. */
  function SessionRow(s: SesionRow): seq<Cell> {
    [Str(s.nombrePaciente), Str(Upper(s.sentimiento)), Str(s.hora)]
  }

  /** The rows of the sessions, in order. */
  function SessionRows(ss: seq<SesionRow>): (r: Sheet)
    ensures |r| == |ss| && forall i :: 0 <= i < |ss| ==> r[i] == SessionRow(ss[i])
    decreases |ss|
  {
    if |ss| == 0 then [] else SessionRows(ss[..|ss| - 1]) + [SessionRow(ss[|ss| - 1])]
  }

  /** The block of a day: its title, the column headers, its sessions or the placeholder, two blank rows. */
  function DayBlock(fecha: string, ss: seq<SesionRow>): Sheet {
    [[Str("D\U{CD}A: " + fecha)], HeaderRow]
    + (if |ss| > 0 then SessionRows(ss) else [NoSessionsRow])
    + [Blank, Blank]
  }

  /** The block rows of the days, one block after the other. */
  function DayBlocks(days: seq<string>, data: map<string, seq<SesionRow>>): Sheet
    decreases |days|
  {
    if |days| == 0 then []
    else DayBlocks(days[..|days| - 1], data) + DayBlock(days[|days| - 1], SessionsOf(data, days[|days| - 1]))
  }

  /** The rows of the main sheet. */
  function MainSheet(startDate: string, endDate: string, res: RangeResult, days: seq<string>): Sheet {
    MainPreamble(startDate, endDate, res.totalSesiones, res.diasConSesiones) + DayBlocks(days, res.data)
  }

  /** The rows pushed for one day, appended to the sheet built so far. */
  method PushDay(mainData: Sheet, fechaStr: string, sesiones: seq<SesionRow>) returns (m: Sheet)
    ensures m == mainData + DayBlock(fechaStr, sesiones)
  {
    var rows: Sheet := [[Str("D\U{CD}A: " + fechaStr)], HeaderRow];
    if |sesiones| > 0 {
      for j := 0 to |sesiones|
        invariant rows == [[Str("D\U{CD}A: " + fechaStr)], HeaderRow] + SessionRows(sesiones[..j])
      {
        assert sesiones[..j + 1][..j] == sesiones[..j];
        rows := rows + [SessionRow(sesiones[j])];
      }
      assert sesiones[..|sesiones|] == sesiones;
    } else {
      rows := rows + [NoSessionsRow];
    }
    rows := rows + [Blank, Blank];
    m := mainData + rows;
  }

  /** `mainData` as the route builds it, day by day. */
  method BuildMainSheet(startDate: string, endDate: string, res: RangeResult, days: seq<string>) returns (mainData: Sheet)
    ensures mainData == MainSheet(startDate, endDate, res, days)
  {
    mainData := MainPreamble(startDate, endDate, res.totalSesiones, res.diasConSesiones);
    ghost var preamble := mainData;
    for i := 0 to |days|
      invariant mainData == preamble + DayBlocks(days[..i], res.data)
    {
      DayBlocksStep(preamble, days, res.data, i, mainData);
      mainData := PushDay(mainData, days[i], SessionsOf(res.data, days[i]));
    }
    assert days[..|days|] == days;
  }

  /** Appending the block of the next day extends the sheet by one more day. */
  lemma DayBlocksStep(preamble: Sheet, days: seq<string>, data: map<string, seq<SesionRow>>, i: int, m: Sheet)
    requires 0 <= i < |days| && m == preamble + DayBlocks(days[..i], data)
    ensures m + DayBlock(days[i], SessionsOf(data, days[i])) == preamble + DayBlocks(days[..i + 1], data)
  {
    assert days[..i + 1][..i] == days[..i];
  }

  /** The number of rows of a day block: four around at least one session row. */
  lemma DayBlockSize(fecha: string, ss: seq<SesionRow>)
    ensures |DayBlock(fecha, ss)| == 4 + (if |ss| > 0 then |ss| else 1)
    ensures DayBlock(fecha, ss)[0] == [Str("D\U{CD}A: " + fecha)] && DayBlock(fecha, ss)[1] == HeaderRow
  {
  }

  /** A day without sessions gets exactly the placeholder between its headers and the blank rows. */
  lemma AbsentDayBlock(fecha: string, data: map<string, seq<SesionRow>>)
    requires fecha !in data
    ensures DayBlock(fecha, SessionsOf(data, fecha)) ==
              [[Str("D\U{CD}A: " + fecha)], HeaderRow, NoSessionsRow, Blank, Blank]
  {
  }

  /** The blocks of the first `k` days are followed, in the blocks of all days, by the block of day `k`. */
  lemma {:induction false} DayBlocksOrder(days: seq<string>, data: map<string, seq<SesionRow>>, k: int)
    requires 0 <= k < |days|
    ensures DayBlocks(days[..k], data) + DayBlock(days[k], SessionsOf(data, days[k])) <= DayBlocks(days, data)
    decreases |days|
  {
    var init := days[..|days| - 1];
    if k == |days| - 1 {
      assert days[..k] == init;
    } else {
      DayBlocksOrder(init, data, k);
      assert init[..k] == days[..k];
      assert init[k] == days[k];
    }
  }

  /** The main sheet holds the six preamble rows and then the block of each day, in the order of the days. */
  lemma MainSheetShape(startDate: string, endDate: string, res: RangeResult, days: seq<string>, k: int)
    requires 0 <= k < |days|
    ensures var m := MainSheet(startDate, endDate, res, days);
      var pre := MainPreamble(startDate, endDate, res.totalSesiones, res.diasConSesiones);
      pre + DayBlocks(days[..k], res.data) + DayBlock(days[k], SessionsOf(res.data, days[k])) <= m
  {
    DayBlocksOrder(days, res.data, k);
    var pre := MainPreamble(startDate, endDate, res.totalSesiones, res.diasConSesiones);
    PrefixAfter(pre, DayBlocks(days[..k], res.data), DayBlock(days[k], SessionsOf(res.data, days[k])), DayBlocks(days, res.data));
  }

  /** A prefix stays a prefix behind the same leading rows. */
  lemma PrefixAfter<T>(p: seq<T>, a: seq<T>, b: seq<T>, c: seq<T>)
    requires a + b <= c
    ensures p + a + b <= p + c
  {
    assert p + a + b == p + (a + b);
  }

  /** `sesiones.filter(s => s.sentimiento === value).length` */
  function CountSentiment(ss: seq<SesionRow>, value: string): (n: nat)
    ensures n <= |ss|
    decreases |ss|
  {
    if |ss| == 0 then 0
    else CountSentiment(ss[..|ss| - 1], value) + (if ss[|ss| - 1].sentimiento == value then 1 else 0)
  }

  /** The summary line of a day: the date, the session count and the count of each sentiment. */
  function ResumenRow(fecha: string, ss: seq<SesionRow>): seq<Cell> {
    [Str(fecha), Num(|ss|), Num(CountSentiment(ss, "verde")), Num(CountSentiment(ss, "amarillo")), Num(CountSentiment(ss, "rojo"))]
  }

  /** The summary lines, one per day in order. */
  function ResumenRows(days: seq<string>, data: map<string, seq<SesionRow>>): (r: Sheet)
    ensures |r| == |days| && forall i :: 0 <= i < |days| ==> r[i] == ResumenRow(days[i], SessionsOf(data, days[i]))
    decreases |days|
  {
    if |days| == 0 then []
    else ResumenRows(days[..|days| - 1], data) + [ResumenRow(days[|days| - 1], SessionsOf(data, days[|days| - 1]))]
  }

  function ResumenSheet(startDate: string, endDate: string, res: RangeResult, days: seq<string>): Sheet {
    ResumenPreamble(startDate, endDate, res.totalSesiones, res.diasConSesiones) + ResumenRows(days, res.data)
  }

  /** `resumenData` as the route builds it, one line per day. */
  method BuildResumenSheet(startDate: string, endDate: string, res: RangeResult, days: seq<string>) returns (resumenData: Sheet)
    ensures resumenData == ResumenSheet(startDate, endDate, res, days)
  {
    resumenData := ResumenPreamble(startDate, endDate, res.totalSesiones, res.diasConSesiones);
    ghost var preamble := resumenData;
    for i := 0 to |days|
      invariant resumenData == preamble + ResumenRows(days[..i], res.data)
    {
      assert days[..i + 1][..i] == days[..i];
      var fechaStr := days[i];
      var sesiones := SessionsOf(res.data, fechaStr);
      var verde := CountSentiment(sesiones, "verde");
      var amarillo := CountSentiment(sesiones, "amarillo");
      var rojo := CountSentiment(sesiones, "rojo");
      resumenData := resumenData + [[Str(fechaStr), Num(|sesiones|), Num(verde), Num(amarillo), Num(rojo)]];
    }
    assert days[..|days|] == days;
  }

  /** The summary sheet has seven preamble rows and then the line of day `i` at row `7 + i`. */
  lemma ResumenShape(startDate: string, endDate: string, res: RangeResult, days: seq<string>)
    ensures |ResumenSheet(startDate, endDate, res, days)| == 7 + |days|
    ensures forall i :: 0 <= i < |days| ==>
              ResumenSheet(startDate, endDate, res, days)[7 + i] == ResumenRow(days[i], SessionsOf(res.data, days[i]))
  {
  }

  /** A sentiment stored as one of the three enum texts. */
  predicate KnownSentiment(s: SesionRow) {
    s.sentimiento == "verde" || s.sentimiento == "amarillo" || s.sentimiento == "rojo"
  }

  /** When every sentiment is one of the three, the three counts add up to the day's count. */
  lemma {:induction false} SentimentCountsAddUp(ss: seq<SesionRow>)
    requires forall i :: 0 <= i < |ss| ==> KnownSentiment(ss[i])
    ensures CountSentiment(ss, "verde") + CountSentiment(ss, "amarillo") + CountSentiment(ss, "rojo") == |ss|
    decreases |ss|
  {
    if |ss| > 0 {
      var init := ss[..|ss| - 1];
      assert forall i :: 0 <= i < |init| ==> KnownSentiment(init[i]) by {
        forall i | 0 <= i < |init| ensures KnownSentiment(init[i]) {
          assert init[i] == ss[i];
        }
      }
      SentimentCountsAddUp(init);
      assert KnownSentiment(ss[|ss| - 1]);
    }
  }

  /** A day missing from the grouping has a zero line in the summary. */
  lemma AbsentDaySummary(fecha: string, data: map<string, seq<SesionRow>>)
    requires fecha !in data
    ensures ResumenRow(fecha, SessionsOf(data, fecha)) == [Str(fecha), Num(0), Num(0), Num(0), Num(0)]
  {
  }

  /**
   * The POST handler: a missing or empty date is a 400; a failed query a 500; otherwise
   * both sheets over the days of the interval. `fetch` is `getSesionesPorRangoFechas` and
   * `daysOf` the formatted days of `eachDayOfInterval`.
   */
  method Export(startDate: Option<string>, endDate: Option<string>,
                fetch: (string, string) -> RangeResult, daysOf: (string, string) -> seq<string>)
    returns (resp: ExportResponse)
    ensures startDate.None? || endDate.None? || startDate.value == "" || endDate.value == "" ==>
              resp == Failure(400, "Se requieren fechas de inicio y fin")
    ensures startDate.Some? && endDate.Some? && startDate.value != "" && endDate.value != "" ==>
              var res := fetch(startDate.value, endDate.value);
              var days := daysOf(startDate.value, endDate.value);
              if !res.success then resp == Failure(500, "Error al obtener las sesiones")
              else resp == Workbook(MainSheet(startDate.value, endDate.value, res, days),
                                    ResumenSheet(startDate.value, endDate.value, res, days),
                                    "sesiones_" + startDate.value + "_a_" + endDate.value + ".xlsx")
  {
    if startDate.None? || endDate.None? || startDate.value == "" || endDate.value == "" {
      return Failure(400, "Se requieren fechas de inicio y fin");
    }
    var result := fetch(startDate.value, endDate.value);
    if !result.success {
      return Failure(500, "Error al obtener las sesiones");
    }
    var todasLasFechas := daysOf(startDate.value, endDate.value);
    var mainData := BuildMainSheet(startDate.value, endDate.value, result, todasLasFechas);
    var resumenData := BuildResumenSheet(startDate.value, endDate.value, result, todasLasFechas);
    resp := Workbook(mainData, resumenData, "sesiones_" + startDate.value + "_a_" + endDate.value + ".xlsx");
  }
}
