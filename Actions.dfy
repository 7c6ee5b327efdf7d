/**
 * The in-memory parts of the server actions: the patient ids of the sessions in a range,
 * the search filter and paging of the patient list, the date-range filter and grouping
 * of sessions by day, and the date written into a new session. The rows the database
 * returns are inputs; `None` stands for a query that threw.
 */
module Actions {
  import opened Optional
  import opened Text
  import opened Calendar
  import opened Schema

  // ---------------------------------------------------------------------------
  // Patient ids of the sessions in a range

  /** `[...new Set(xs)]`: the values in order of first occurrence, each once. */
  function Distinct<T(==,!new)>(xs: seq<T>): (r: seq<T>)
    ensures forall i, j :: 0 <= i < j < |r| ==> r[i] != r[j]
    ensures forall x :: x in r <==> x in xs
    decreases |xs|
  {
    if |xs| == 0 then []
    else
      var d := Distinct(xs[..|xs| - 1]);
      if xs[|xs| - 1] in d then d else d + [xs[|xs| - 1]]
  }

  /** `.filter(id => id !== null)` */
  function NonNull(xs: seq<Option<string>>): (r: seq<string>)
    ensures forall x :: x in r <==> Some(x) in xs
    ensures (forall i, j :: 0 <= i < j < |xs| ==> xs[i] != xs[j]) ==> forall i, j :: 0 <= i < j < |r| ==> r[i] != r[j]
    decreases |xs|
  {
    if |xs| == 0 then []
    else
      var rest := NonNull(xs[1..]);
      assert forall x :: Some(x) in xs[1..] ==> Some(x) in xs;
      if xs[0].Some? then
        assert (forall i, j :: 0 <= i < j < |xs| ==> xs[i] != xs[j]) ==> xs[0].value !in rest;
        [xs[0].value] + rest
      else rest
  }

  /** `pacienteIds` of `getPacientes`: the distinct non-null patient ids of the sessions in the range. */
  function PacienteIds(pacienteIdsEnRango: seq<Option<string>>): (r: seq<string>)
    ensures forall i, j :: 0 <= i < j < |r| ==> r[i] != r[j]
    ensures forall x :: x in r <==> Some(x) in pacienteIdsEnRango
  {
    NonNull(Distinct(pacienteIdsEnRango))
  }

  // ---------------------------------------------------------------------------
  // Search and paging of the patient list

  /** A patient matches a lower-cased query when either name, lower-cased, contains it. */
  predicate Matches(p: Paciente, query: string) {
    Contains(Lower(p.nombrePaciente), query) || Contains(Lower(p.nombreKinesiologo), query)
  }

  /** `pacientesData.filter(...)` with the matching predicate, in the original order. */
  function FilterByQuery(ps: seq<Paciente>, query: string): (r: seq<Paciente>)
    ensures |r| <= |ps|
    ensures forall p :: p in r <==> p in ps && Matches(p, query)
    decreases |ps|
  {
    if |ps| == 0 then []
    else
      var rest := FilterByQuery(ps[..|ps| - 1], query);
      if Matches(ps[|ps| - 1], query) then rest + [ps[|ps| - 1]] else rest
  }

  /** Filtering a concatenation filters each part: the order of the kept patients is the input order. */
  lemma {:induction false} FilterByQueryConcat(a: seq<Paciente>, b: seq<Paciente>, query: string)
    ensures FilterByQuery(a + b, query) == FilterByQuery(a, query) + FilterByQuery(b, query)
    decreases |b|
  {
    if |b| > 0 {
      var b' := b[..|b| - 1];
      assert (a + b)[..|a + b| - 1] == a + b';
      FilterByQueryConcat(a, b', query);
    } else {
      assert a + b == a;
    }
  }

  /**
   * The search step of `getPacientesConBusqueda`: a query that is not blank is
   * lower-cased and trimmed and the patients are filtered by it; otherwise all are kept.
   */
  function SearchFilter(ps: seq<Paciente>, searchQuery: Option<string>): (r: seq<Paciente>)
    ensures searchQuery.None? || Trim(searchQuery.value) == "" ==> r == ps
    ensures searchQuery.Some? && Trim(searchQuery.value) != "" ==>
              forall p :: p in r <==> p in ps && Matches(p, Trim(Lower(searchQuery.value)))
  {
    if searchQuery.Some? && Trim(searchQuery.value) != "" then FilterByQuery(ps, Trim(Lower(searchQuery.value)))
    else ps
  }

  /** Lower-casing a query does not change whether it is blank. */
  lemma LowerKeepsBlank(s: string)
    ensures Trim(s) == "" <==> Trim(Lower(s)) == ""
  {
    var l := Lower(s);
    forall i | 0 <= i < |s| ensures IsWhitespace(s[i]) <==> IsWhitespace(l[i]) {
      if IsLatinCapital(s[i]) {
        assert IsLatinSmall(l[i]);
      }
    }
    TrimEmpty(s);
    TrimEmpty(l);
  }

  /** Queries that differ only in letter case select the same patients. */
  lemma SearchCaseInsensitive(ps: seq<Paciente>, q1: string, q2: string)
    requires Lower(q1) == Lower(q2)
    ensures SearchFilter(ps, Some(q1)) == SearchFilter(ps, Some(q2))
  {
    LowerKeepsBlank(q1);
    LowerKeepsBlank(q2);
  }

  /** A query already in small letters selects the same patients as the query typed in any case. */
  lemma LoweredQuerySameResult(ps: seq<Paciente>, q: string)
    ensures SearchFilter(ps, Some(Lower(q))) == SearchFilter(ps, Some(q))
  {
    LowerIdempotent(q);
    SearchCaseInsensitive(ps, Lower(q), q);
  }

  /** An accented capital in a name is found by the same letter in small type. */
  lemma AccentedNameMatches(p: Paciente)
    requires p.nombrePaciente == "\U{C1}NGEL"
    ensures Matches(p, "\U{E1}ngel")
  {
    var l := Lower(p.nombrePaciente);
    assert l == "\U{E1}ngel";
    assert StartsWith(l, "\U{E1}ngel");
  }

  /** `Math.ceil(total / pageSize)` */
  function CeilDiv(total: nat, pageSize: nat): (r: nat)
    requires pageSize > 0
    ensures r * pageSize >= total
    ensures r == 0 || (r - 1) * pageSize < total
  {
    (total + pageSize - 1) / pageSize
  }

  /** An index argument of `Array.prototype.slice`: negative counts from the end; the result is clipped to `[0, len]`. */
  function SliceIndex(i: int, len: nat): (r: nat)
    ensures r <= len
  {
    if i < 0 then (if len + i < 0 then 0 else len + i) else if i > len then len else i
  }

  /** `xs.slice(start, end)` */
  function JsSlice<T>(xs: seq<T>, start: int, end: int): (r: seq<T>)
    ensures 0 <= start <= end ==> r == xs[SliceIndex(start, |xs|)..SliceIndex(end, |xs|)]
  {
    var s, e := SliceIndex(start, |xs|), SliceIndex(end, |xs|);
    if e <= s then [] else xs[s..e]
  }

  /** The patients of page `page`: `slice((page - 1) * pageSize, (page - 1) * pageSize + pageSize)`. */
  function PageSlice(ps: seq<Paciente>, page: int, pageSize: nat): seq<Paciente> {
    var startIndex := (page - 1) * pageSize;
    JsSlice(ps, startIndex, startIndex + pageSize)
  }

  /** Pages `1..n` one after the other. */
  function PagesUpTo(ps: seq<Paciente>, n: nat, pageSize: nat): seq<Paciente>
    decreases n
  {
    if n == 0 then [] else PagesUpTo(ps, n - 1, pageSize) + PageSlice(ps, n, pageSize)
  }

  function MinNat(a: nat, b: nat): nat { if a <= b then a else b }

  /** The first `n` pages are the first `n * pageSize` patients. */
  lemma {:induction false} PagesUpToPrefix(ps: seq<Paciente>, n: nat, pageSize: nat)
    ensures PagesUpTo(ps, n, pageSize) == ps[..MinNat(n * pageSize, |ps|)]
    decreases n
  {
    if n > 0 {
      PagesUpToPrefix(ps, n - 1, pageSize);
      var lo := MinNat((n - 1) * pageSize, |ps|);
      var hi := MinNat(n * pageSize, |ps|);
      assert (n - 1) * pageSize + pageSize == n * pageSize;
      assert PageSlice(ps, n, pageSize) == ps[lo..hi];
      assert ps[..lo] + ps[lo..hi] == ps[..hi];
    }
  }

  lemma MulLe(a: nat, b: nat, c: nat)
    requires a <= b
    ensures a * c <= b * c
  {
  }

  /** Every page up to `totalPages` holds between one and `pageSize` patients, starting after the earlier pages. */
  lemma PageNonEmpty(ps: seq<Paciente>, page: int, pageSize: nat)
    requires pageSize > 0 && 1 <= page <= CeilDiv(|ps|, pageSize)
    ensures (page - 1) * pageSize < |ps|
    ensures |PageSlice(ps, page, pageSize)| == MinNat((page - 1) * pageSize + pageSize, |ps|) - (page - 1) * pageSize
    ensures 0 < |PageSlice(ps, page, pageSize)| <= pageSize
  {
    var n := CeilDiv(|ps|, pageSize);
    MulLe(page - 1, n - 1, pageSize);
    var start := (page - 1) * pageSize;
    assert SliceIndex(start, |ps|) == start;
    assert SliceIndex(start + pageSize, |ps|) == MinNat(start + pageSize, |ps|);
  }

  /** Pages `1..totalPages` partition the filtered list: together they are the list, in order. */
  lemma PagesPartition(ps: seq<Paciente>, pageSize: nat)
    requires pageSize > 0
    ensures PagesUpTo(ps, CeilDiv(|ps|, pageSize), pageSize) == ps
    ensures forall page :: 1 <= page <= CeilDiv(|ps|, pageSize) ==> 0 < |PageSlice(ps, page, pageSize)| <= pageSize
  {
    var n := CeilDiv(|ps|, pageSize);
    PagesUpToPrefix(ps, n, pageSize);
    assert ps[..|ps|] == ps;
    forall page | 1 <= page <= n ensures 0 < |PageSlice(ps, page, pageSize)| <= pageSize {
      PageNonEmpty(ps, page, pageSize);
    }
  }

  /**
   * The "Mostrando X - Y de Z" line of the patient list: for a page that exists, `X` is
   * one past the patients before the page and `Y - X + 1` is the size of the page.
   */
  lemma ShownRangeMatchesPage(ps: seq<Paciente>, page: int, pageSize: nat)
    requires pageSize > 0 && 1 <= page <= CeilDiv(|ps|, pageSize)
    ensures var first := (page - 1) * pageSize + 1;
      var last := if page * pageSize <= |ps| then page * pageSize else |ps|;
      |PageSlice(ps, page, pageSize)| == last - first + 1
  {
    PageNonEmpty(ps, page, pageSize);
    assert (page - 1) * pageSize + pageSize == page * pageSize;
  }

  /** What `getPacientesConBusqueda` returns (the per-patient session counts are not modelled). */
  datatype PacientesPage = PacientesPage(pacientes: seq<Paciente>, total: nat, totalPages: nat)

  /**
   * `getPacientesConBusqueda` after the database query: search, count, page. A failed
   * query gives an empty page with no pages.
   */
  function PacientesConBusqueda(rows: Option<seq<Paciente>>, searchQuery: Option<string>, page: int, pageSize: nat): (r: PacientesPage)
    requires pageSize > 0
    ensures rows.None? ==> r == PacientesPage([], 0, 0)
    ensures rows.Some? ==> r.total == |SearchFilter(rows.value, searchQuery)|
    ensures rows.Some? ==> r.totalPages == CeilDiv(r.total, pageSize)
    ensures rows.Some? ==> |r.pacientes| <= pageSize
    ensures rows.Some? ==> r.pacientes == PageSlice(SearchFilter(rows.value, searchQuery), page, pageSize)
    ensures forall p :: p in r.pacientes ==> p in SearchFilter(rows.value, searchQuery)
  {
    match rows
    case None => PacientesPage([], 0, 0)
    case Some(data) =>
      var filtered := SearchFilter(data, searchQuery);
      var total := |filtered|;
      var res := PageSlice(filtered, page, pageSize);
      assert forall p :: p in res ==> p in filtered;
      PacientesPage(res, total, CeilDiv(total, pageSize))
  }

  // ---------------------------------------------------------------------------
  // Sessions in a date range, grouped by day

  /** A row of the session query joined with its patient. */
  datatype SesionRow = SesionRow(
    id: string,
    fecha: string,
    hora: string,
    sentimiento: string,
    pacienteId: string,
    nombrePaciente: string,
    nombreKinesiologo: string)

  /**
   * `s.split('-').map(Number)` read as day, month and year: `None` when a part is missing
   * or is not a number, which makes the JavaScript `Date` invalid.
   */
  function ParseDmy(s: string): Option<Date> {
    var parts := Split(s, '-');
    if |parts| < 3 then None
    else
      match (JsNumber(parts[0]), JsNumber(parts[1]), JsNumber(parts[2]))
      case (Some(dia), Some(mes), Some(anio)) => Some(Date(anio, mes, dia))
      case _ => None
  }

  /** A formatted date reads back as the same date. */
  lemma DmyRoundTrip(d: Date)
    requires d.day >= 0 && d.month >= 0 && d.year >= 0
    ensures ParseDmy(FormatDmy(d)) == Some(d)
  {
    FormatDmySplit(d);
    NumberOfPad2(d.day);
    NumberOfPad2(d.month);
    NumberOfYear(d.year);
    ParseDmyOf(FormatDmy(d), Pad2(d.day), Pad2(d.month), IntToString(d.year), d.day, d.month, d.year);
  }

  /** Three parts that are numbers read as day, month and year. */
  lemma ParseDmyOf(s: string, a: string, b: string, c: string, day: int, month: int, year: int)
    requires Split(s, '-') == [a, b, c]
    requires JsNumber(a) == Some(day) && JsNumber(b) == Some(month) && JsNumber(c) == Some(year)
    ensures ParseDmy(s) == Some(Date(year, month, day))
  {
  }

  /** `Number` reads back a padded day or month. */
  lemma NumberOfPad2(n: nat)
    ensures JsNumber(Pad2(n)) == Some(n)
  {
    Pad2Digits(n);
  }

  /** `Number` reads back a written year. */
  lemma NumberOfYear(y: nat)
    ensures JsNumber(IntToString(y)) == Some(y)
  {
    DigitsRoundTrip(y);
  }

  /** `enRango`: the session's date lies between the two bounds, both included; an invalid date is never in range. */
  predicate EnRango(fecha: string, startDate: string, endDate: string) {
    match (ParseDmy(fecha), ParseDmy(startDate), ParseDmy(endDate))
    case (Some(f), Some(s), Some(e)) => OnOrBefore(s, f) && OnOrBefore(f, e)
    case _ => false
  }

  /**
   * The filter callback throws: it is called on some row and one of the three dates it
   * builds is invalid, so `toISOString` raises a `RangeError`.
   */
  predicate FilterThrows(rows: seq<SesionRow>, startDate: string, endDate: string) {
    |rows| > 0 &&
    (ParseDmy(startDate).None? || ParseDmy(endDate).None? || exists i :: 0 <= i < |rows| && ParseDmy(rows[i].fecha).None?)
  }

  /** A session dated `aa-02-2024` makes the filter throw, whatever the bounds. */
  lemma UnreadableDateThrows(row: SesionRow, startDate: string, endDate: string)
    requires row.fecha == "aa-02-2024"
    ensures FilterThrows([row], startDate, endDate)
  {
    var a, b := "aa", "02-2024";
    assert row.fecha == a + ['-'] + b;
    SplitJoin(a, '-', b);
    assert !IsWhitespace(a[0]) && !IsWhitespace(a[1]);
    assert Trim(a) == a;
    assert !AllDigits(a) by {
      assert !IsDigit(a[0]);
    }
    assert ParseDmy(row.fecha).None?;
    assert [row][0] == row;
  }

  /** `sesionesEnRango`: the rows whose date is in range, in their original order. */
  function InRange(rows: seq<SesionRow>, startDate: string, endDate: string): (r: seq<SesionRow>)
    ensures |r| <= |rows|
    ensures forall x :: x in r <==> x in rows && EnRango(x.fecha, startDate, endDate)
    decreases |rows|
  {
    if |rows| == 0 then []
    else
      var rest := InRange(rows[..|rows| - 1], startDate, endDate);
      if EnRango(rows[|rows| - 1].fecha, startDate, endDate) then rest + [rows[|rows| - 1]] else rest
  }

  /** Filtering a concatenation filters each part: the kept sessions stay in the input order. */
  lemma {:induction false} InRangeConcat(a: seq<SesionRow>, b: seq<SesionRow>, startDate: string, endDate: string)
    ensures InRange(a + b, startDate, endDate) == InRange(a, startDate, endDate) + InRange(b, startDate, endDate)
    decreases |b|
  {
    if |b| > 0 {
      var b' := b[..|b| - 1];
      assert (a + b)[..|a + b| - 1] == a + b';
      InRangeConcat(a, b', startDate, endDate);
    } else {
      assert a + b == a;
    }
  }

  /** The dates of the rows, in order. */
  function Fechas(rows: seq<SesionRow>): (r: seq<string>)
    ensures |r| == |rows| && forall i :: 0 <= i < |rows| ==> r[i] == rows[i].fecha
    decreases |rows|
  {
    if |rows| == 0 then [] else Fechas(rows[..|rows| - 1]) + [rows[|rows| - 1].fecha]
  }

  /** The keys of `sesionesPorDia`, in insertion order: each date once, where it first occurs. */
  function FechaKeys(rows: seq<SesionRow>): seq<string> {
    Distinct(Fechas(rows))
  }

  /** The rows of one day, in their original order. */
  function Bucket(rows: seq<SesionRow>, fecha: string): (r: seq<SesionRow>)
    ensures forall x :: x in r <==> x in rows && x.fecha == fecha
    decreases |rows|
  {
    if |rows| == 0 then []
    else
      var rest := Bucket(rows[..|rows| - 1], fecha);
      if rows[|rows| - 1].fecha == fecha then rest + [rows[|rows| - 1]] else rest
  }

  lemma FechaKeysAppend(rows: seq<SesionRow>, x: SesionRow)
    ensures FechaKeys(rows + [x]) == if x.fecha in FechaKeys(rows) then FechaKeys(rows) else FechaKeys(rows) + [x.fecha]
  {
    assert (rows + [x])[..|rows|] == rows;
    var f := Fechas(rows + [x]);
    assert f[..|f| - 1] == Fechas(rows);
  }

  lemma BucketAppend(rows: seq<SesionRow>, x: SesionRow, fecha: string)
    ensures Bucket(rows + [x], fecha) == if x.fecha == fecha then Bucket(rows, fecha) + [x] else Bucket(rows, fecha)
  {
    assert (rows + [x])[..|rows|] == rows;
  }

  /** A date that is not a key has no rows. */
  lemma BucketOfMissingKey(rows: seq<SesionRow>, fecha: string)
    requires fecha !in FechaKeys(rows)
    ensures Bucket(rows, fecha) == []
  {
    forall y | y in rows ensures y.fecha in Fechas(rows) {
      var k :| 0 <= k < |rows| && rows[k] == y;
      assert Fechas(rows)[k] == y.fecha;
    }
  }

  /** `keys` and `buckets` are the grouping of `rows`: its dates in first-occurrence order, each with its rows. */
  ghost predicate Grouped(rows: seq<SesionRow>, keys: seq<string>, buckets: map<string, seq<SesionRow>>) {
    keys == FechaKeys(rows)
    && (forall f :: f in buckets <==> f in keys)
    && (forall f :: f in buckets ==> buckets[f] == Bucket(rows, f))
  }

  /** The state just before a row is pushed: its date is already a key, and every bucket holds the earlier rows. */
  ghost predicate ReadyFor(rows: seq<SesionRow>, x: SesionRow, keys: seq<string>, buckets: map<string, seq<SesionRow>>) {
    keys == FechaKeys(rows + [x])
    && (forall f :: f in buckets <==> f in keys)
    && (forall f :: f in buckets ==> buckets[f] == Bucket(rows, f))
  }

  /** A row with a date not seen before opens an empty bucket for its date. */
  lemma OpenBucket(rows: seq<SesionRow>, x: SesionRow, keys: seq<string>, buckets: map<string, seq<SesionRow>>)
    requires Grouped(rows, keys, buckets) && x.fecha !in buckets
    ensures ReadyFor(rows, x, keys + [x.fecha], buckets[x.fecha := []])
  {
    FechaKeysAppend(rows, x);
    BucketOfMissingKey(rows, x.fecha);
  }

  /** A row with a date seen before finds its bucket open. */
  lemma BucketOpen(rows: seq<SesionRow>, x: SesionRow, keys: seq<string>, buckets: map<string, seq<SesionRow>>)
    requires Grouped(rows, keys, buckets) && x.fecha in buckets
    ensures ReadyFor(rows, x, keys, buckets)
  {
    FechaKeysAppend(rows, x);
  }

  /** Pushing the row onto the bucket of its date gives the grouping of the longer list. */
  lemma PushRow(rows: seq<SesionRow>, x: SesionRow, keys: seq<string>, buckets: map<string, seq<SesionRow>>)
    requires ReadyFor(rows, x, keys, buckets) && x.fecha in buckets
    ensures Grouped(rows + [x], keys, buckets[x.fecha := buckets[x.fecha] + [x]])
  {
    var b := buckets[x.fecha := buckets[x.fecha] + [x]];
    forall f | f in b ensures b[f] == Bucket(rows + [x], f) {
      BucketAppend(rows, x, f);
    }
  }

  /** The `forEach` that fills `sesionesPorDia`, with the record's key order kept in `keys`. */
  method GroupByFecha(rows: seq<SesionRow>) returns (keys: seq<string>, buckets: map<string, seq<SesionRow>>)
    ensures keys == FechaKeys(rows)
    ensures forall f :: f in buckets <==> f in keys
    ensures forall f :: f in buckets ==> buckets[f] == Bucket(rows, f)
  {
    keys := [];
    buckets := map[];
    for i := 0 to |rows|
      invariant Grouped(rows[..i], keys, buckets)
    {
      var fecha := rows[i].fecha;
      assert rows[..i + 1] == rows[..i] + [rows[i]];
      if fecha !in buckets {
        OpenBucket(rows[..i], rows[i], keys, buckets);
        buckets := buckets[fecha := []];
        keys := keys + [fecha];
      } else {
        BucketOpen(rows[..i], rows[i], keys, buckets);
      }
      PushRow(rows[..i], rows[i], keys, buckets);
      buckets := buckets[fecha := buckets[fecha] + [rows[i]]];
    }
    assert rows[..|rows|] == rows;
  }

  /** The number of rows of each of the given days, added up. */
  function SumCounts(keys: seq<string>, rows: seq<SesionRow>): nat
    decreases |keys|
  {
    if |keys| == 0 then 0 else SumCounts(keys[..|keys| - 1], rows) + |Bucket(rows, keys[|keys| - 1])|
  }

  /** One more row adds one to the count of its own day and nothing elsewhere. */
  lemma {:induction false} SumCountsAppend(keys: seq<string>, rows: seq<SesionRow>, x: SesionRow)
    requires forall i, j :: 0 <= i < j < |keys| ==> keys[i] != keys[j]
    ensures SumCounts(keys, rows + [x]) == SumCounts(keys, rows) + (if x.fecha in keys then 1 else 0)
    decreases |keys|
  {
    if |keys| > 0 {
      var init := keys[..|keys| - 1];
      SumCountsAppend(init, rows, x);
      assert (rows + [x])[..|rows|] == rows;
      assert x.fecha in keys <==> x.fecha in init || x.fecha == keys[|keys| - 1];
      assert x.fecha == keys[|keys| - 1] ==> x.fecha !in init;
    }
  }

  /** `totalSesiones` is the sum of the sizes of the day buckets. */
  lemma {:induction false} TotalIsSumOfBuckets(rows: seq<SesionRow>)
    ensures SumCounts(FechaKeys(rows), rows) == |rows|
    decreases |rows|
  {
    if |rows| > 0 {
      var prefix := rows[..|rows| - 1];
      var x := rows[|rows| - 1];
      TotalIsSumOfBuckets(prefix);
      assert prefix + [x] == rows;
      var keys := FechaKeys(prefix);
      FechaKeysAppend(prefix, x);
      SumCountsAppend(keys, prefix, x);
      if x.fecha !in keys {
        var keys' := keys + [x.fecha];
        assert keys'[..|keys|] == keys;
        BucketOfMissingKey(prefix, x.fecha);
        BucketAppend(prefix, x, x.fecha);
        assert SumCounts(keys', rows) == SumCounts(keys, rows) + 1;
      }
    }
  }

  /** A duplicate-free sequence has as many elements as its set. */
  lemma {:induction false} DistinctCardinality(xs: seq<string>)
    requires forall i, j :: 0 <= i < j < |xs| ==> xs[i] != xs[j]
    ensures |set x | x in xs| == |xs|
    decreases |xs|
  {
    if |xs| > 0 {
      var init := xs[..|xs| - 1];
      DistinctCardinality(init);
      assert (set x | x in xs) == (set x | x in init) + {xs[|xs| - 1]};
      assert xs[|xs| - 1] !in init;
    }
  }

  /** `diasConSesiones` is the number of distinct session dates. */
  lemma DaysAreDistinctDates(rows: seq<SesionRow>)
    ensures |FechaKeys(rows)| == |set x | x in rows :: x.fecha|
  {
    var keys := FechaKeys(rows);
    DistinctCardinality(keys);
    assert (set x | x in keys) == (set x | x in rows :: x.fecha) by {
      forall f | f in (set x | x in rows :: x.fecha) ensures f in keys {
        var x :| x in rows && x.fecha == f;
        var k :| 0 <= k < |rows| && rows[k] == x;
        assert Fechas(rows)[k] == f;
      }
    }
  }

  /** What `getSesionesPorRangoFechas` returns; `keys` is the key order of `data`. */
  datatype RangeResult = RangeResult(
    success: bool,
    keys: seq<string>,
    data: map<string, seq<SesionRow>>,
    totalSesiones: nat,
    diasConSesiones: nat)

  /**
   * `getSesionesPorRangoFechas` after the database query: the sessions in range grouped
   * by day, with their count and the number of days. A failed query, and an invalid date
   * met by the filter, give the empty failure result of the `catch`.
   */
  method SesionesPorRangoFechas(rows: Option<seq<SesionRow>>, startDate: string, endDate: string) returns (res: RangeResult)
    ensures rows.None? || FilterThrows(rows.value, startDate, endDate) ==> res == RangeResult(false, [], map[], 0, 0)
    ensures rows.Some? && !FilterThrows(rows.value, startDate, endDate) ==>
              res.success
              && res.keys == FechaKeys(InRange(rows.value, startDate, endDate))
              && (forall f :: f in res.data <==> f in res.keys)
              && (forall f :: f in res.data ==> res.data[f] == Bucket(InRange(rows.value, startDate, endDate), f))
              && res.totalSesiones == |InRange(rows.value, startDate, endDate)| == SumCounts(res.keys, InRange(rows.value, startDate, endDate))
              && res.diasConSesiones == |res.keys|
  {
    if rows.None? || FilterThrows(rows.value, startDate, endDate) {
      return RangeResult(false, [], map[], 0, 0);
    }
    var sesionesEnRango := InRange(rows.value, startDate, endDate);
    var keys, sesionesPorDia := GroupByFecha(sesionesEnRango);
    TotalIsSumOfBuckets(sesionesEnRango);
    res := RangeResult(true, keys, sesionesPorDia, |sesionesEnRango|, |keys|);
  }

  // ---------------------------------------------------------------------------
  // A new session

  /**
   * `createSesionDiaria`: today's date as zero-padded `DD-MM-YYYY`; the id, the clock
   * time and the patient come from outside.
   */
  function NuevaSesion(id: string, pacienteId: string, now: Date, hora: string, sentimiento: Sentimiento): (s: Sesion)
    ensures s.pacienteId == Some(pacienteId) && s.sentimiento == sentimiento
    ensures s.fecha == FormatDmy(now)
    ensures now.day >= 0 && now.month >= 0 && now.year >= 0 ==> ParseDmy(s.fecha) == Some(now)
  {
    assert now.day >= 0 && now.month >= 0 && now.year >= 0 ==> ParseDmy(FormatDmy(now)) == Some(now) by {
      if now.day >= 0 && now.month >= 0 && now.year >= 0 {
        DmyRoundTrip(now);
      }
    }
    Sesion(id, Some(pacienteId), FormatDmy(now), hora, sentimiento)
  }

  /** A session created today is in a range exactly when today lies between the range's bounds. */
  lemma CreatedSessionInRange(now: Date, startDate: string, endDate: string)
    requires now.day >= 0 && now.month >= 0 && now.year >= 0
    requires ParseDmy(startDate).Some? && ParseDmy(endDate).Some?
    ensures EnRango(FormatDmy(now), startDate, endDate) <==>
              OnOrBefore(ParseDmy(startDate).value, now) && OnOrBefore(now, ParseDmy(endDate).value)
  {
    DmyRoundTrip(now);
  }
}
