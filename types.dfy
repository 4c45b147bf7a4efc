/**
 * The record types of `src/types/index.ts` used by the pages: persons,
 * attendance records, the NFC lookup reply and the predefined age ranges.
 * The string unions of the declarations become enumerations, with their
 * wire names and a parser back from them.
 */
module Types {
  import opened Base

  /** `Persona.tipo`: 'hijo' | 'animador' | 'adulto'. */
  datatype TipoPersona = Hijo | Animador | Adulto

  /** `Persona.sexo`: 'masculino' | 'femenino'. */
  datatype Sexo = Masculino | Femenino

  /** `Asistencia.tipo`: 'entrada' | 'salida'. */
  datatype TipoAsistencia = Entrada | Salida

  /**
   * `Persona`: the optional fields cedula, telefono, celular, email, nfc_uid
   * and foto are `Option`s; `activo` is a mandatory boolean.
   */
  datatype Persona = Persona(
    id: int,
    nombre: string,
    apellido: string,
    edad: int,
    tipo: TipoPersona,
    sexo: Sexo,
    cedula: Option<string>,
    telefono: Option<string>,
    celular: Option<string>,
    email: Option<string>,
    nfcUid: Option<string>,
    foto: Option<string>,
    activo: bool,
    createdAt: string,
    updatedAt: string)

  /**
   * `Asistencia`. The declaration makes `persona` mandatory; server data is
   * not checked against it and the attendance page tests for it, so the
   * model keeps it optional and `Declared` says when a record has it.
   */
  datatype Asistencia = Asistencia(
    id: int,
    personaId: int,
    tipo: TipoAsistencia,
    fechaHora: string,
    dispositivoUuid: string,
    createdAt: string,
    updatedAt: string,
    persona: Option<Persona>)

  predicate Declared(a: Asistencia)
  {
    a.persona.Some?
  }

  /** `NfcData`: the scanned uid, the person it belongs to if any, today's records. */
  datatype NfcData = NfcData(uid: string, persona: Option<Persona>, asistenciasHoy: seq<Asistencia>)

  /** `FiltroEdad`: a label and an integer age range. */
  datatype FiltroEdad = FiltroEdad(labelText: string, edadMin: int, edadMax: int)

  /** The group record of `src/lib/grupos.ts`. */
  datatype Grupo = Grupo(id: int, nombre: string)

  /** The wire name of a person type. */
  function TipoName(t: TipoPersona): string
  {
    match t
    case Hijo => "hijo"
    case Animador => "animador"
    case Adulto => "adulto"
  }

  /** The person type a wire name denotes, if it is one of the three. */
  function ParseTipo(s: string): (r: Option<TipoPersona>)
    ensures r.Some? ==> TipoName(r.value) == s
  {
    if s == "hijo" then Some(Hijo)
    else if s == "animador" then Some(Animador)
    else if s == "adulto" then Some(Adulto)
    else None
  }

  /** Wire names of person types round-trip, so no two types share one. */
  lemma TipoRoundTrip(t: TipoPersona)
    ensures ParseTipo(TipoName(t)) == Some(t)
  {
  }

  /** A string is the wire name of some person type exactly when it parses. */
  lemma TipoNames(s: string)
    ensures ParseTipo(s).Some? <==> s in {"hijo", "animador", "adulto"}
  {
  }

  function SexoName(s: Sexo): string
  {
    match s
    case Masculino => "masculino"
    case Femenino => "femenino"
  }

  function ParseSexo(s: string): (r: Option<Sexo>)
    ensures r.Some? ==> SexoName(r.value) == s
  {
    if s == "masculino" then Some(Masculino)
    else if s == "femenino" then Some(Femenino)
    else None
  }

  lemma SexoRoundTrip(s: Sexo)
    ensures ParseSexo(SexoName(s)) == Some(s)
  {
  }

  function TipoAsistenciaName(t: TipoAsistencia): string
  {
    match t
    case Entrada => "entrada"
    case Salida => "salida"
  }

  function ParseTipoAsistencia(s: string): (r: Option<TipoAsistencia>)
    ensures r.Some? ==> TipoAsistenciaName(r.value) == s
  {
    if s == "entrada" then Some(Entrada)
    else if s == "salida" then Some(Salida)
    else None
  }

  lemma TipoAsistenciaRoundTrip(t: TipoAsistencia)
    ensures ParseTipoAsistencia(TipoAsistenciaName(t)) == Some(t)
  {
  }
}
