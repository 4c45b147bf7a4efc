/**
 * The attendance page `src/pages/Asistencias.tsx`: the predefined age
 * ranges, the query parameters `cargarAsistencias` appends, the unwrapping of
 * list replies in `cargarAsistencias`/`cargarGrupos`, and the
 * `asistenciasFiltradas` list the page shows. The age selector's value
 * encoding comes from `src/components/FiltroEdad.tsx`.
 */
module AsistenciasPage {
  import opened Base
  import opened Text
  import opened Seqs
  import opened Decimal
  import opened Types
  import opened Responses

  /** `filtrosEdad`. */
  const FiltrosEdad: seq<FiltroEdad> := [
    FiltroEdad("8 a 9 años", 8, 9),
    FiltroEdad("10 a 11 años", 10, 11),
    FiltroEdad("12 a 13 años", 12, 13),
    FiltroEdad("14 a 17 años", 14, 17),
    FiltroEdad("18 a 25 años", 18, 25),
    FiltroEdad("26+ años", 26, 100)
  ]

  predicate InRange(f: FiltroEdad, edad: int)
  {
    f.edadMin <= edad <= f.edadMax
  }

  /** Non-empty ranges, each starting one year after the previous one ends. */
  predicate Contiguous(fs: seq<FiltroEdad>)
  {
    (forall i :: 0 <= i < |fs| ==> fs[i].edadMin <= fs[i].edadMax)
    && (forall i :: 0 < i < |fs| ==> fs[i].edadMin == fs[i - 1].edadMax + 1)
  }

  /** The predefined ranges are contiguous and run from 8 to 100. */
  lemma FiltrosEdadContiguous()
    ensures Contiguous(FiltrosEdad)
    ensures FiltrosEdad[0].edadMin == 8 && FiltrosEdad[|FiltrosEdad| - 1].edadMax == 100
  {
  }

  /** In contiguous ranges every age of the span lies in exactly one range. */
  lemma {:induction false} ContiguousCover(fs: seq<FiltroEdad>, edad: int)
    requires Contiguous(fs) && fs != []
    requires fs[0].edadMin <= edad <= fs[|fs| - 1].edadMax
    ensures exists i :: 0 <= i < |fs| && InRange(fs[i], edad)
    ensures forall i, j :: 0 <= i < j < |fs| && InRange(fs[i], edad) ==> !InRange(fs[j], edad)
    decreases |fs|
  {
    ContiguousAscending(fs);
    if !InRange(fs[0], edad) {
      ContiguousCover(fs[1..], edad);
      var k :| 0 <= k < |fs[1..]| && InRange(fs[1..][k], edad);
      assert InRange(fs[k + 1], edad);
    }
  }

  /** Contiguous ranges ascend: a later range starts after every earlier one ends. */
  lemma {:induction false} ContiguousAscending(fs: seq<FiltroEdad>)
    requires Contiguous(fs)
    ensures forall i, j :: 0 <= i < j < |fs| ==> fs[i].edadMax < fs[j].edadMin
    decreases |fs|
  {
    if |fs| > 1 {
      ContiguousAscending(fs[1..]);
      assert forall j :: 1 < j < |fs| ==> fs[1].edadMax < fs[j].edadMin by {
        forall j | 1 < j < |fs| ensures fs[1].edadMax < fs[j].edadMin {
          assert fs[1..][0] == fs[1] && fs[1..][j - 1] == fs[j];
        }
      }
    }
  }

  /** Every age from 8 to 100 falls in exactly one predefined range. */
  lemma FiltrosEdadCover(edad: int)
    requires 8 <= edad <= 100
    ensures exists i :: 0 <= i < |FiltrosEdad| && InRange(FiltrosEdad[i], edad)
    ensures forall i, j :: 0 <= i < j < |FiltrosEdad| && InRange(FiltrosEdad[i], edad) ==> !InRange(FiltrosEdad[j], edad)
  {
    FiltrosEdadContiguous();
    ContiguousCover(FiltrosEdad, edad);
  }

  /** `filtrosEdad.find(f => f.label === label)`. */
  function FindByLabel(fs: seq<FiltroEdad>, name: string): (r: Option<FiltroEdad>)
    ensures r.Some? ==> r.value in fs && r.value.labelText == name
    ensures r.None? <==> forall i :: 0 <= i < |fs| ==> fs[i].labelText != name
  {
    if fs == [] then None
    else if fs[0].labelText == name then Some(fs[0])
    else FindByLabel(fs[1..], name)
  }

  /** The value the age selector emits for a range: `${edad_min}-${edad_max}`. */
  function SelectorValue(f: FiltroEdad): string
  {
    IntToString(f.edadMin) + "-" + IntToString(f.edadMax)
  }

  /** The value the age selector emits for "all ages". */
  const NoFilter: string := "sin-filtro"

  /** The range whose bounds `cargarAsistencias` sends for the selected age value. */
  function AgeFilter(filtros: seq<FiltroEdad>, filtroEdad: string): Option<FiltroEdad>
  {
    if filtroEdad != "" && filtroEdad != NoFilter then FindByLabel(filtros, filtroEdad) else None
  }

  /**
   * The selector's values are never labels: a value holds '-' after the
   * digits of a non-negative minimum, no label holds '-'. So no value the
   * selector can emit yields age bounds.
   */
  lemma AgeParamsNeverSent(filtroEdad: string)
    requires filtroEdad == NoFilter || exists i :: 0 <= i < |FiltrosEdad| && filtroEdad == SelectorValue(FiltrosEdad[i])
    ensures AgeFilter(FiltrosEdad, filtroEdad).None?
  {
    LabelsWithoutDash();
    SelectorValuesNeverLabels(FiltrosEdad, filtroEdad);
  }

  /** With dash-free labels and non-negative minimums, no selector value finds a range by label. */
  lemma SelectorValuesNeverLabels(fs: seq<FiltroEdad>, filtroEdad: string)
    requires forall i :: 0 <= i < |fs| ==> '-' !in fs[i].labelText && fs[i].edadMin >= 0
    requires filtroEdad == NoFilter || exists i :: 0 <= i < |fs| && filtroEdad == SelectorValue(fs[i])
    ensures AgeFilter(fs, filtroEdad).None?
  {
    if filtroEdad != NoFilter {
      var i :| 0 <= i < |fs| && filtroEdad == SelectorValue(fs[i]);
      DashAfterDigits(IntToString(fs[i].edadMin), IntToString(fs[i].edadMax));
      DashNeverLabel(fs, filtroEdad, |IntToString(fs[i].edadMin)|);
    }
  }

  /** A text holding '-' matches no label free of '-'. */
  lemma DashNeverLabel(fs: seq<FiltroEdad>, value: string, k: nat)
    requires k < |value| && value[k] == '-'
    requires forall i :: 0 <= i < |fs| ==> '-' !in fs[i].labelText
    ensures FindByLabel(fs, value).None?
  {
    forall i | 0 <= i < |fs| ensures fs[i].labelText != value {
      assert value[k] in value;
    }
  }

  /** In `digits + "-" + rest` the first '-' comes right after the digits. */
  lemma DashAfterDigits(digits: string, rest: string)
    requires forall k :: 0 <= k < |digits| ==> '0' <= digits[k] <= '9'
    ensures (digits + "-" + rest)[|digits|] == '-'
    ensures forall k :: 0 <= k < |digits| ==> (digits + "-" + rest)[k] != '-'
  {
  }

  lemma LabelsWithoutDash()
    ensures forall i :: 0 <= i < |FiltrosEdad| ==> '-' !in FiltrosEdad[i].labelText && FiltrosEdad[i].edadMin >= 0
  {
    var labels := ["8 a 9 años", "10 a 11 años", "12 a 13 años", "14 a 17 años", "18 a 25 años", "26+ años"];
    assert forall i :: 0 <= i < |FiltrosEdad| ==> FiltrosEdad[i].labelText == labels[i];
    assert forall i, k :: 0 <= i < |labels| && 0 <= k < |labels[i]| ==> labels[i][k] != '-';
  }

  /** The lookup the selector's values call for: the first range whose selector value matches. */
  function FindBySelectorValue(fs: seq<FiltroEdad>, value: string): (r: Option<FiltroEdad>)
    ensures r.Some? ==> r.value in fs && SelectorValue(r.value) == value
    ensures r.None? <==> forall i :: 0 <= i < |fs| ==> SelectorValue(fs[i]) != value
  {
    if fs == [] then None
    else if SelectorValue(fs[0]) == value then Some(fs[0])
    else FindBySelectorValue(fs[1..], value)
  }

  /** A selector value fixes both bounds of a range with a non-negative minimum. */
  lemma SelectorValueInjective(a: FiltroEdad, b: FiltroEdad)
    requires a.edadMin >= 0 && b.edadMin >= 0
    requires SelectorValue(a) == SelectorValue(b)
    ensures a.edadMin == b.edadMin && a.edadMax == b.edadMax
  {
    var x, y := IntToString(a.edadMin), IntToString(b.edadMin);
    var s := SelectorValue(a);
    DashAfterDigits(x, IntToString(a.edadMax));
    DashAfterDigits(y, IntToString(b.edadMax));
    assert |x| == |y|;
    assert x == s[..|x|] == y;
    IntToStringInjective(a.edadMin, b.edadMin);
    assert IntToString(a.edadMax) == s[|x| + 1..] == IntToString(b.edadMax);
    IntToStringInjective(a.edadMax, b.edadMax);
  }

  /** In contiguous ranges with non-negative minimums, each range is found by its selector value. */
  lemma ContiguousSelect(fs: seq<FiltroEdad>, i: nat)
    requires Contiguous(fs) && i < |fs|
    requires forall k :: 0 <= k < |fs| ==> fs[k].edadMin >= 0
    ensures FindBySelectorValue(fs, SelectorValue(fs[i])) == Some(fs[i])
  {
    var r := FindBySelectorValue(fs, SelectorValue(fs[i]));
    var j :| 0 <= j < |fs| && fs[j] == r.value;
    SelectorValueInjective(r.value, fs[i]);
    ContiguousAscending(fs);
  }

  /** Looked up by selector value, every predefined range is found. */
  lemma SelectorValueSelects(i: nat)
    requires i < |FiltrosEdad|
    ensures FindBySelectorValue(FiltrosEdad, SelectorValue(FiltrosEdad[i])) == Some(FiltrosEdad[i])
  {
    FiltrosEdadContiguous();
    ContiguousSelect(FiltrosEdad, i);
  }

  /** The keys `cargarAsistencias` may append, in the order it appends them. */
  datatype ParamKey = Fecha | EdadMin | EdadMax | GrupoId | Busqueda

  /** The key as it appears in the query string. */
  function KeyName(k: ParamKey): string
  {
    match k
    case Fecha => "fecha"
    case EdadMin => "edad_min"
    case EdadMax => "edad_max"
    case GrupoId => "grupo_id"
    case Busqueda => "busqueda"
  }

  /** Distinct keys have distinct names in the query string. */
  lemma KeyNameInjective(a: ParamKey, b: ParamKey)
    requires KeyName(a) == KeyName(b)
    ensures a == b
  {
  }

  function Rank(k: ParamKey): nat
  {
    match k
    case Fecha => 0
    case EdadMin => 1
    case EdadMax => 2
    case GrupoId => 3
    case Busqueda => 4
  }

  /** One `params.append(key, value)`. */
  datatype Param = Param(key: ParamKey, value: string)

  /** `params.get(key)`: the first value appended under `key`. */
  function Lookup(params: seq<Param>, key: ParamKey): (r: Option<string>)
    ensures r.None? <==> forall i :: 0 <= i < |params| ==> params[i].key != key
  {
    if params == [] then None
    else if params[0].key == key then Some(params[0].value)
    else Lookup(params[1..], key)
  }

  /** Keys appear in the order the page appends them, each at most once. */
  predicate WellOrdered(params: seq<Param>)
  {
    forall i, j :: 0 <= i < j < |params| ==> Rank(params[i].key) < Rank(params[j].key)
  }

  /** `params.get` on a concatenation: the first part answers when it can. */
  lemma {:induction false} LookupConcat(a: seq<Param>, b: seq<Param>, key: ParamKey)
    ensures Lookup(a + b, key) == if Lookup(a, key).Some? then Lookup(a, key) else Lookup(b, key)
    decreases |a|
  {
    if a == [] {
      assert a + b == b;
    } else {
      assert (a + b)[1..] == a[1..] + b;
      LookupConcat(a[1..], b, key);
    }
  }

  /** The value `cargarAsistencias` sends under `key`, if any. */
  function Wanted(filtros: seq<FiltroEdad>, filtroFecha: string, filtroEdad: string, filtroGrupo: string,
                  busqueda: string, key: ParamKey): Option<string>
  {
    var edad := AgeFilter(filtros, filtroEdad);
    match key
    case Fecha => if filtroFecha != "" then Some(filtroFecha) else None
    case EdadMin => if edad.Some? then Some(IntToString(edad.value.edadMin)) else None
    case EdadMax => if edad.Some? then Some(IntToString(edad.value.edadMax)) else None
    case GrupoId => if filtroGrupo != "" && filtroGrupo != NoFilter then Some(filtroGrupo) else None
    case Busqueda => if busqueda != "" then Some(busqueda) else None
  }

  /** The parameter appended under `key` when there is a value for it. */
  function Optional(key: ParamKey, value: Option<string>): (r: seq<Param>)
    ensures |r| <= 1 && forall i :: 0 <= i < |r| ==> r[i].key == key
  {
    if value.Some? then [Param(key, value.value)] else []
  }

  /** The parameters in the order `cargarAsistencias` appends them. */
  function ParamsFor(filtros: seq<FiltroEdad>, filtroFecha: string, filtroEdad: string, filtroGrupo: string,
                     busqueda: string): seq<Param>
  {
    Optional(Fecha, Wanted(filtros, filtroFecha, filtroEdad, filtroGrupo, busqueda, Fecha))
    + Optional(EdadMin, Wanted(filtros, filtroFecha, filtroEdad, filtroGrupo, busqueda, EdadMin))
    + Optional(EdadMax, Wanted(filtros, filtroFecha, filtroEdad, filtroGrupo, busqueda, EdadMax))
    + Optional(GrupoId, Wanted(filtros, filtroFecha, filtroEdad, filtroGrupo, busqueda, GrupoId))
    + Optional(Busqueda, Wanted(filtros, filtroFecha, filtroEdad, filtroGrupo, busqueda, Busqueda))
  }

  /** The query carries each key at most once, in the page's order. */
  lemma ParamsForOrdered(filtros: seq<FiltroEdad>, filtroFecha: string, filtroEdad: string, filtroGrupo: string,
                         busqueda: string)
    ensures WellOrdered(ParamsFor(filtros, filtroFecha, filtroEdad, filtroGrupo, busqueda))
  {
    var w := k => Wanted(filtros, filtroFecha, filtroEdad, filtroGrupo, busqueda, k);
    var p1 := Optional(Fecha, w(Fecha));
    var p2 := p1 + Optional(EdadMin, w(EdadMin));
    var p3 := p2 + Optional(EdadMax, w(EdadMax));
    var p4 := p3 + Optional(GrupoId, w(GrupoId));
    OrderedSnoc(p1, Optional(EdadMin, w(EdadMin)), EdadMin);
    OrderedSnoc(p2, Optional(EdadMax, w(EdadMax)), EdadMax);
    OrderedSnoc(p3, Optional(GrupoId, w(GrupoId)), GrupoId);
    OrderedSnoc(p4, Optional(Busqueda, w(Busqueda)), Busqueda);
  }

  /** Parameters ranking below `key`, followed by at most one under `key`, stay ordered. */
  lemma OrderedSnoc(a: seq<Param>, b: seq<Param>, key: ParamKey)
    requires WellOrdered(a) && forall i :: 0 <= i < |a| ==> Rank(a[i].key) < Rank(key)
    requires |b| <= 1 && forall j :: 0 <= j < |b| ==> b[j].key == key
    ensures WellOrdered(a + b)
    ensures forall i :: 0 <= i < |a + b| ==> Rank((a + b)[i].key) <= Rank(key)
  {
    var c := a + b;
    forall i, j | 0 <= i < j < |c| ensures Rank(c[i].key) < Rank(c[j].key) {
      if j < |a| {
        assert c[i] == a[i] && c[j] == a[j];
      } else {
        assert c[i] == a[i] && c[j] == b[j - |a|];
      }
    }
    forall i | 0 <= i < |c| ensures Rank(c[i].key) <= Rank(key) {
      if i < |a| {
        assert c[i] == a[i];
      } else {
        assert c[i] == b[i - |a|];
      }
    }
  }

  /**
   * `params.get(key)` gives exactly the value wanted for `key`: fecha when
   * set, both bounds of the range whose label is selected or neither,
   * grupo_id unless empty or 'sin-filtro', busqueda when set.
   */
  lemma ParamsForLookups(filtros: seq<FiltroEdad>, filtroFecha: string, filtroEdad: string, filtroGrupo: string,
                         busqueda: string, key: ParamKey)
    ensures Lookup(ParamsFor(filtros, filtroFecha, filtroEdad, filtroGrupo, busqueda), key)
      == Wanted(filtros, filtroFecha, filtroEdad, filtroGrupo, busqueda, key)
  {
    var w := k => Wanted(filtros, filtroFecha, filtroEdad, filtroGrupo, busqueda, k);
    var p1 := Optional(Fecha, w(Fecha));
    var p2 := p1 + Optional(EdadMin, w(EdadMin));
    var p3 := p2 + Optional(EdadMax, w(EdadMax));
    var p4 := p3 + Optional(GrupoId, w(GrupoId));
    LookupConcat(p1, Optional(EdadMin, w(EdadMin)), key);
    LookupConcat(p2, Optional(EdadMax, w(EdadMax)), key);
    LookupConcat(p3, Optional(GrupoId, w(GrupoId)), key);
    LookupConcat(p4, Optional(Busqueda, w(Busqueda)), key);
  }

  /**
   * The parameter building of `cargarAsistencias`: each key appended only
   * when it has a value, in the page's order.
   */
  method BuildParams(filtros: seq<FiltroEdad>, filtroFecha: string, filtroEdad: string, filtroGrupo: string, busqueda: string)
    returns (params: seq<Param>)
    ensures params == ParamsFor(filtros, filtroFecha, filtroEdad, filtroGrupo, busqueda)
  {
    params := [];
    if filtroFecha != "" {
      params := params + [Param(Fecha, filtroFecha)];
    }
    if filtroEdad != "" && filtroEdad != NoFilter {
      var filtro := FindByLabel(filtros, filtroEdad);
      if filtro.Some? {
        params := params + [Param(EdadMin, IntToString(filtro.value.edadMin))];
        params := params + [Param(EdadMax, IntToString(filtro.value.edadMax))];
      }
    }
    if filtroGrupo != "" && filtroGrupo != NoFilter {
      params := params + [Param(GrupoId, filtroGrupo)];
    }
    if busqueda != "" {
      params := params + [Param(Busqueda, busqueda)];
    }
  }

  /**
   * `response.data` unwrapped as the page does it: a top-level array, else
   * an array at `data`, else an array at `key`, else []; a falsy body gives [].
   */
  function UnwrapList<T>(body: Json<T>, key: string): seq<T>
  {
    if !JsTruthy(body) then []
    else if body.Arr? then body.items
    else
      var d := Get(body, "data");
      if JsTruthy(d) && d.Arr? then d.items
      else
        var a := Get(body, key);
        if JsTruthy(a) && a.Arr? then a.items else []
  }

  /**
   * Each of the three reply shapes is unwrapped to the list it carries, a
   * `data` array taking precedence over one under `key`; any other body
   * gives [].
   */
  lemma UnwrapListShapes<T>(xs: seq<T>, fields: map<string, Json<T>>, key: string)
    ensures UnwrapList(Arr(xs), key) == xs
    ensures "data" in fields && fields["data"] == Arr(xs) ==> UnwrapList(Obj(fields), key) == xs
    ensures ("data" !in fields || !fields["data"].Arr?) && key in fields && fields[key] == Arr(xs) ==>
      UnwrapList(Obj(fields), key) == xs
    ensures ("data" !in fields || !fields["data"].Arr?) && (key !in fields || !fields[key].Arr?) ==>
      UnwrapList(Obj(fields), key) == []
  {
  }

  /** A body without a list, or a request that failed, leaves the page with no entries. */
  lemma UnwrapListEmpty<T>(body: Json<T>, key: string)
    requires Nullish(body) || body.Bool? || body.Num? || body.Str?
    ensures UnwrapList(body, key) == []
  {
  }

  /**
   * `cargarAsistencias`: the query it sends, and the entries it keeps from
   * the reply; a failed request leaves none.
   */
  method CargarAsistencias(filtroFecha: string, filtroEdad: string, filtroGrupo: string, busqueda: string,
                           reply: Result<Json<Option<Asistencia>>, AxiosError>)
    returns (params: seq<Param>, asistencias: seq<Option<Asistencia>>)
    ensures WellOrdered(params)
    ensures forall k :: Lookup(params, k) == Wanted(FiltrosEdad, filtroFecha, filtroEdad, filtroGrupo, busqueda, k)
    ensures reply.Err? ==> asistencias == []
    ensures reply.Ok? ==> asistencias == UnwrapList(reply.value, "asistencias")
  {
    params := BuildParams(FiltrosEdad, filtroFecha, filtroEdad, filtroGrupo, busqueda);
    forall k ensures Lookup(params, k) == Wanted(FiltrosEdad, filtroFecha, filtroEdad, filtroGrupo, busqueda, k) {
      ParamsForLookups(FiltrosEdad, filtroFecha, filtroEdad, filtroGrupo, busqueda, k);
    }
    ParamsForOrdered(FiltrosEdad, filtroFecha, filtroEdad, filtroGrupo, busqueda);
    if reply.Err? {
      asistencias := [];
    } else {
      asistencias := UnwrapList(reply.value, "asistencias");
    }
  }

  /** `cargarGrupos`: the groups kept from the reply; a failed request leaves none. */
  function CargarGrupos(reply: Result<Json<Grupo>, AxiosError>): (r: seq<Grupo>)
    ensures reply.Err? ==> r == []
    ensures reply.Ok? && reply.value.Arr? ==> r == reply.value.items
  {
    if reply.Err? then [] else UnwrapList(reply.value, "grupos")
  }

  /** The search test of `asistenciasFiltradas`: "nombre apellido" or the cédula contains the term. */
  predicate MatchesSearch(p: Persona, busqueda: string)
  {
    var term := Lower(busqueda);
    Contains(Lower(p.nombre + " " + p.apellido), term)
    || Contains(Lower(if p.cedula.Some? then p.cedula.value else ""), term)
  }

  predicate HasPersona(a: Option<Asistencia>)
  {
    a.Some? && a.value.persona.Some?
  }

  predicate KeepAsistencia(a: Option<Asistencia>, busqueda: string)
  {
    HasPersona(a) && (busqueda == "" || MatchesSearch(a.value.persona.value, busqueda))
  }

  function KeepFor(busqueda: string): Option<Asistencia> -> bool
  {
    a => KeepAsistencia(a, busqueda)
  }

  /**
   * `asistenciasFiltradas`: an order-preserving sublist that drops entries
   * without a persona and, for a search, entries the search does not match.
   */
  function AsistenciasFiltradas(asistencias: seq<Option<Asistencia>>, busqueda: string): (r: seq<Option<Asistencia>>)
    ensures Subsequence(r, asistencias)
    ensures forall i :: 0 <= i < |r| ==>
      HasPersona(r[i]) && (busqueda != "" ==> MatchesSearch(r[i].value.persona.value, busqueda))
    ensures forall i :: 0 <= i < |asistencias| && KeepAsistencia(asistencias[i], busqueda) ==> asistencias[i] in r
    ensures forall a :: multiset(r)[a] == if KeepAsistencia(a, busqueda) then multiset(asistencias)[a] else 0
  {
    Filter(asistencias, KeepFor(busqueda))
  }

  /** An empty search keeps exactly the entries that have a persona. */
  lemma EmptySearchKeepsDeclared(asistencias: seq<Option<Asistencia>>)
    ensures AsistenciasFiltradas(asistencias, "") == Filter(asistencias, HasPersona)
  {
    FilterExt(asistencias, KeepFor(""), HasPersona);
  }

  /** Any search result is a sublist of the empty-search result. */
  lemma SearchNarrows(asistencias: seq<Option<Asistencia>>, busqueda: string)
    ensures Subsequence(AsistenciasFiltradas(asistencias, busqueda), AsistenciasFiltradas(asistencias, ""))
  {
    FilterMonotone(asistencias, KeepFor(busqueda), KeepFor(""));
  }

  /** The search ignores the case of ASCII letters in the term. */
  lemma SearchCaseInsensitive(asistencias: seq<Option<Asistencia>>, busqueda: string)
    ensures AsistenciasFiltradas(asistencias, Upper(busqueda)) == AsistenciasFiltradas(asistencias, busqueda)
  {
    LowerUpper(busqueda);
    FilterExt(asistencias, KeepFor(Upper(busqueda)), KeepFor(busqueda));
  }
}
