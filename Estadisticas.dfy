/**
 * The statistics page: the date parameter of the hourly query, the peak hour shown in the
 * summary, the names of the period filters, and how a query result replaces what is shown.
 */
module Estadisticas {
  import opened Optional
  import opened Text
  import opened Calendar
  import opened Actions

  /** `fechaParam`: the selected day as `DD-MM-YYYY`, or no parameter. */
  function FechaParam(fecha: Option<Date>): (r: Option<string>)
    ensures r.None? <==> fecha.None?
    ensures fecha.Some? ==> r == Some(FormatDmy(fecha.value))
    ensures r.Some? && fecha.value.day >= 0 && fecha.value.month >= 0 && fecha.value.year >= 0 ==>
              ParseDmy(r.value) == fecha
  {
    if fecha.Some? then
      var d := fecha.value;
      assert d.day >= 0 && d.month >= 0 && d.year >= 0 ==> ParseDmy(FormatDmy(d)) == Some(d) by {
        if d.day >= 0 && d.month >= 0 && d.year >= 0 {
          DmyRoundTrip(d);
        }
      }
      Some(FormatDmy(d))
    else None
  }

  /** One bar of the hourly chart. */
  datatype DatosPorHora = DatosPorHora(hora: string, cantidad: int, horaDisplay: string)

  /** One bar of the period chart. */
  datatype DatosPorDia = DatosPorDia(periodo: string, cantidad: int)

  /**
   * The position of the element the `reduce` keeps: a later element replaces the kept one
   * only with a strictly larger `cantidad`, so this is the first of the largest.
   */
  function PeakIndex(ds: seq<DatosPorHora>): (i: nat)
    requires |ds| > 0
    ensures i < |ds|
    ensures forall j :: 0 <= j < |ds| ==> ds[j].cantidad <= ds[i].cantidad
    ensures forall j :: 0 <= j < i ==> ds[j].cantidad < ds[i].cantidad
    decreases |ds|
  {
    if |ds| == 1 then 0
    else
      var p := PeakIndex(ds[..|ds| - 1]);
      if ds[|ds| - 1].cantidad > ds[p].cantidad then |ds| - 1 else p
  }

  /** The "Horario Pico" card: the display hour of the peak, or `--` without data. */
  function HorarioPico(ds: seq<DatosPorHora>): (r: string)
    ensures |ds| == 0 ==> r == "--"
    ensures |ds| > 0 ==> exists i :: 0 <= i < |ds| && r == ds[i].horaDisplay
                           && (forall j :: 0 <= j < |ds| ==> ds[j].cantidad <= ds[i].cantidad)
                           && (forall j :: 0 <= j < i ==> ds[j].cantidad < ds[i].cantidad)
  {
    if |ds| > 0 then ds[PeakIndex(ds)].horaDisplay else "--"
  }

  /** The peak does not depend on which of the tied bars comes later. */
  lemma PeakIgnoresLaterTies(ds: seq<DatosPorHora>, x: DatosPorHora)
    requires |ds| > 0 && x.cantidad <= ds[PeakIndex(ds)].cantidad
    ensures PeakIndex(ds + [x]) == PeakIndex(ds)
  {
    assert (ds + [x])[..|ds|] == ds;
  }

  /** The period filter of the page. */
  datatype FiltroTiempo = Semanal | Mensual | Trimestral | Semestral | Anual

  /** The filter the page starts with. */
  const FiltroInicial := Mensual

  /** `obtenerNombreFiltro` */
  function NombreFiltro(f: FiltroTiempo): string {
    match f
    case Semanal => "\U{DA}ltima Semana"
    case Mensual => "\U{DA}ltimo Mes"
    case Trimestral => "\U{DA}ltimo Trimestre"
    case Semestral => "\U{DA}ltimo Semestre"
    case Anual => "\U{DA}ltimo A\U{F1}o"
  }

  /** Different filters have different names. */
  lemma NombresDistintos(f: FiltroTiempo, g: FiltroTiempo)
    requires f != g
    ensures NombreFiltro(f) != NombreFiltro(g)
  {
    var a, b := NombreFiltro(f), NombreFiltro(g);
    if f == Semanal || g == Semanal {
      assert a[5] != b[5];
    } else if f == Mensual || g == Mensual {
      assert a[7] != b[7];
    } else if f == Anual || g == Anual {
      assert a[7] != b[7];
    } else {
      assert a[9] != b[9];
    }
  }

  /** What a statistics query answers. */
  datatype QueryResult<D> = QueryResult(success: bool, datos: seq<D>, totalSesiones: int)

  /** A chart with its total and its loading flag. */
  datatype Panel<D> = Panel(datos: seq<D>, total: int, cargando: bool)

  /** A panel before its first answer. */
  function EmptyPanel<D>(): Panel<D> {
    Panel([], 0, true)
  }

  /** The end of a load: data and total are replaced only by a successful answer; loading ends either way. */
  function Load<D>(p: Panel<D>, res: QueryResult<D>): (r: Panel<D>)
    ensures !r.cargando
    ensures res.success ==> r.datos == res.datos && r.total == res.totalSesiones
    ensures !res.success ==> r.datos == p.datos && r.total == p.total
  {
    if res.success then Panel(res.datos, res.totalSesiones, false) else Panel(p.datos, p.total, false)
  }

  /** A run of loads, one answer after the other. */
  function LoadAll<D>(p: Panel<D>, rs: seq<QueryResult<D>>): Panel<D>
    decreases |rs|
  {
    if |rs| == 0 then p else Load(LoadAll(p, rs[..|rs| - 1]), rs[|rs| - 1])
  }

  /** After a run of loads the panel shows the last successful answer, or what it showed before when none succeeded. */
  lemma {:induction false} LastSuccessShown<D>(p: Panel<D>, rs: seq<QueryResult<D>>)
    ensures var q := LoadAll(p, rs);
      (forall i :: 0 <= i < |rs| ==> !rs[i].success) ==> q.datos == p.datos && q.total == p.total
    ensures var q := LoadAll(p, rs);
      forall i :: 0 <= i < |rs| && rs[i].success && (forall j :: i < j < |rs| ==> !rs[j].success) ==>
        q.datos == rs[i].datos && q.total == rs[i].totalSesiones
    decreases |rs|
  {
    if |rs| > 0 {
      var init := rs[..|rs| - 1];
      LastSuccessShown(p, init);
      assert forall i :: 0 <= i < |init| ==> init[i] == rs[i];
    }
  }

  /** `cargarDatosPorHora`: the hourly query for the selected day. */
  function CargarDatosPorHora(p: Panel<DatosPorHora>, fecha: Option<Date>,
                              query: Option<string> -> QueryResult<DatosPorHora>): (r: Panel<DatosPorHora>)
    ensures !r.cargando
    ensures var res := query(FechaParam(fecha));
      if res.success then r.datos == res.datos && r.total == res.totalSesiones
      else r.datos == p.datos && r.total == p.total
  {
    Load(p, query(FechaParam(fecha)))
  }

  /** `cargarDatosPorDia`: the period query for the selected filter. */
  function CargarDatosPorDia(p: Panel<DatosPorDia>, filtro: FiltroTiempo,
                             query: FiltroTiempo -> QueryResult<DatosPorDia>): (r: Panel<DatosPorDia>)
    ensures !r.cargando
    ensures var res := query(filtro);
      if res.success then r.datos == res.datos && r.total == res.totalSesiones
      else r.datos == p.datos && r.total == p.total
  {
    Load(p, query(filtro))
  }
}
