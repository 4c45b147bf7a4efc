/**
 * The person list of `src/pages/Personas.tsx`: `personasFiltradas` keeps the
 * active persons that pass the type selector, the age selector and the name
 * search. The name search is shared with `src/pages/AsociarNFC.tsx`.
 */
module PersonasPage {
  import opened Text
  import opened Seqs
  import opened Types

  /** The type selector's "all types" value. */
  const Todos: string := "todos"

  /** `filtroTipo === 'todos' || persona.tipo === filtroTipo`. */
  predicate CumpleTipo(p: Persona, filtroTipo: string)
  {
    filtroTipo == Todos || TipoName(p.tipo) == filtroTipo
  }

  /** 'todos' passes every age, 'menor18' those under 18, 'mayor18' the rest; any other value none. */
  predicate CumpleEdad(p: Persona, filtroEdad: string)
  {
    filtroEdad == Todos
    || (filtroEdad == "menor18" && p.edad < 18)
    || (filtroEdad == "mayor18" && p.edad >= 18)
  }

  /** An empty search, or the lower-cased term inside the lower-cased nombre or apellido. */
  predicate NameMatches(p: Persona, busqueda: string)
  {
    busqueda == ""
    || Contains(Lower(p.nombre), Lower(busqueda))
    || Contains(Lower(p.apellido), Lower(busqueda))
  }

  predicate KeepPersona(p: Persona, filtroTipo: string, filtroEdad: string, busqueda: string)
  {
    CumpleTipo(p, filtroTipo) && CumpleEdad(p, filtroEdad) && NameMatches(p, busqueda) && p.activo
  }

  function KeepFor(filtroTipo: string, filtroEdad: string, busqueda: string): Persona -> bool
  {
    p => KeepPersona(p, filtroTipo, filtroEdad, busqueda)
  }

  /**
   * `personasFiltradas`: an order-preserving sublist holding exactly the
   * active persons that pass the three filters.
   */
  function PersonasFiltradas(personas: seq<Persona>, filtroTipo: string, filtroEdad: string, busqueda: string)
    : (r: seq<Persona>)
    ensures Subsequence(r, personas)
    ensures forall i :: 0 <= i < |r| ==> r[i].activo && KeepPersona(r[i], filtroTipo, filtroEdad, busqueda)
    ensures forall i :: 0 <= i < |personas| && KeepPersona(personas[i], filtroTipo, filtroEdad, busqueda) ==>
      personas[i] in r
    ensures forall p :: multiset(r)[p] == (if KeepPersona(p, filtroTipo, filtroEdad, busqueda)
                                           then multiset(personas)[p] else 0)
  {
    Filter(personas, KeepFor(filtroTipo, filtroEdad, busqueda))
  }

  /**
   * With the other filters fixed, 'menor18' and 'mayor18' split the 'todos'
   * result: both are sublists of it, and their lengths add up to its length.
   */
  lemma EdadPartition(personas: seq<Persona>, filtroTipo: string, busqueda: string)
    ensures Subsequence(PersonasFiltradas(personas, filtroTipo, "menor18", busqueda),
                        PersonasFiltradas(personas, filtroTipo, Todos, busqueda))
    ensures Subsequence(PersonasFiltradas(personas, filtroTipo, "mayor18", busqueda),
                        PersonasFiltradas(personas, filtroTipo, Todos, busqueda))
    ensures |PersonasFiltradas(personas, filtroTipo, "menor18", busqueda)|
          + |PersonasFiltradas(personas, filtroTipo, "mayor18", busqueda)|
         == |PersonasFiltradas(personas, filtroTipo, Todos, busqueda)|
  {
    var menor, mayor, todos := KeepFor(filtroTipo, "menor18", busqueda), KeepFor(filtroTipo, "mayor18", busqueda),
      KeepFor(filtroTipo, Todos, busqueda);
    FilterMonotone(personas, menor, todos);
    FilterMonotone(personas, mayor, todos);
    FilterPartition(personas, menor, mayor, todos);
  }

  /** An age value other than the three the selector offers selects nobody. */
  lemma UnknownEdadSelectsNobody(personas: seq<Persona>, filtroTipo: string, filtroEdad: string, busqueda: string)
    requires filtroEdad != Todos && filtroEdad != "menor18" && filtroEdad != "mayor18"
    ensures PersonasFiltradas(personas, filtroTipo, filtroEdad, busqueda) == []
  {
    FilterNone(personas, KeepFor(filtroTipo, filtroEdad, busqueda));
  }

  /** A type value that names no declared type, other than 'todos', selects nobody. */
  lemma UndeclaredTipoSelectsNobody(personas: seq<Persona>, filtroTipo: string, filtroEdad: string, busqueda: string)
    requires filtroTipo != Todos && ParseTipo(filtroTipo).None?
    ensures PersonasFiltradas(personas, filtroTipo, filtroEdad, busqueda) == []
  {
    forall p | p in personas ensures !KeepPersona(p, filtroTipo, filtroEdad, busqueda) {
      TipoRoundTrip(p.tipo);
    }
    FilterNone(personas, KeepFor(filtroTipo, filtroEdad, busqueda));
  }

  /** The selector's 'niño' and 'joven' entries are not declared types, so they select nobody. */
  lemma NinoJovenSelectNobody(personas: seq<Persona>, filtroEdad: string, busqueda: string)
    ensures PersonasFiltradas(personas, "niño", filtroEdad, busqueda) == []
    ensures PersonasFiltradas(personas, "joven", filtroEdad, busqueda) == []
  {
    TipoNames("niño");
    TipoNames("joven");
    UndeclaredTipoSelectsNobody(personas, "niño", filtroEdad, busqueda);
    UndeclaredTipoSelectsNobody(personas, "joven", filtroEdad, busqueda);
  }

  /** Any search result is a sublist of the empty-search result. */
  lemma SearchNarrows(personas: seq<Persona>, filtroTipo: string, filtroEdad: string, busqueda: string)
    ensures Subsequence(PersonasFiltradas(personas, filtroTipo, filtroEdad, busqueda),
                        PersonasFiltradas(personas, filtroTipo, filtroEdad, ""))
  {
    FilterMonotone(personas, KeepFor(filtroTipo, filtroEdad, busqueda), KeepFor(filtroTipo, filtroEdad, ""));
  }

  /** The search ignores the case of ASCII letters in the term. */
  lemma SearchCaseInsensitive(personas: seq<Persona>, filtroTipo: string, filtroEdad: string, busqueda: string)
    ensures PersonasFiltradas(personas, filtroTipo, filtroEdad, Upper(busqueda))
         == PersonasFiltradas(personas, filtroTipo, filtroEdad, busqueda)
  {
    LowerUpper(busqueda);
    FilterExt(personas, KeepFor(filtroTipo, filtroEdad, Upper(busqueda)), KeepFor(filtroTipo, filtroEdad, busqueda));
  }

  /** With every filter open the page lists exactly the active persons. */
  lemma OpenFiltersKeepActive(personas: seq<Persona>)
    ensures PersonasFiltradas(personas, Todos, Todos, "") == Filter(personas, (p: Persona) => p.activo)
  {
    FilterExt(personas, KeepFor(Todos, Todos, ""), (p: Persona) => p.activo);
  }
}
