/**
 * The card-association page `src/pages/AsociarNFC.tsx`: it lists the active
 * persons without a card, reads a UID from the simulated `NFCManager` or
 * from the keyboard, and posts the association. Replies of the remote API
 * are inputs; the toasts shown and the requests sent are logged.
 */
module AsociarNfcPage {
  import opened Base
  import opened Text
  import opened Seqs
  import opened Types
  import opened Responses
  import PersonasPage
  import ApiRoutes
  import WebNfc
  import Decimal
  import Bytes

  /** A toast: title, description, and whether it is the destructive variant. */
  datatype Toast = Toast(title: string, description: string, destructive: bool)

  /** `api.post(path, { nfc_uid })`. */
  datatype Post = Post(path: string, nfcUid: string)

  const LoadErrorToast: Toast := Toast("Error", "No se pudieron cargar las personas", true)
  const UnsupportedToast: Toast := Toast("Error", "NFC no está soportado en este dispositivo", true)
  const ReadFailedMessage: string := "No se pudo leer la tarjeta NFC"
  const MissingInputToast: Toast := Toast("Error", "Selecciona una persona y proporciona un UID", true)
  const AssociatedToast: Toast := Toast("Asociación exitosa", "La tarjeta NFC ha sido asociada correctamente", false)
  const AssociateFailedMessage: string := "Error al asociar tarjeta NFC"

  /** `!p.nfc_uid && p.activo`: an active person without a card. */
  predicate IsCandidate(p: Persona)
  {
    !Truthy(p.nfcUid) && p.activo
  }

  /** The persons `cargarPersonas` keeps from the reply: the candidates, each as often as listed, in order. */
  function Candidates(personas: seq<Persona>): (r: seq<Persona>)
    ensures Subsequence(r, personas)
    ensures forall p :: multiset(r)[p] == if IsCandidate(p) then multiset(personas)[p] else 0
  {
    Filter(personas, IsCandidate)
  }

  /** A person is offered exactly when listed in the reply, active, and without a card. */
  lemma CandidatesExactly(personas: seq<Persona>, p: Persona)
    ensures p in Candidates(personas) <==> p in personas && IsCandidate(p)
  {
    var r := Candidates(personas);
    if p in r {
      var i :| 0 <= i < |r| && r[i] == p;
    }
    if p in personas && IsCandidate(p) {
      var i :| 0 <= i < |personas| && personas[i] == p;
    }
  }

  function SearchFor(busqueda: string): Persona -> bool
  {
    p => PersonasPage.NameMatches(p, busqueda)
  }

  /** `personasFiltradas`: the name search of the person list, in order. */
  function PersonasFiltradas(personas: seq<Persona>, busqueda: string): (r: seq<Persona>)
    ensures Subsequence(r, personas)
    ensures forall i :: 0 <= i < |r| ==> PersonasPage.NameMatches(r[i], busqueda)
    ensures forall i :: 0 <= i < |personas| && PersonasPage.NameMatches(personas[i], busqueda) ==> personas[i] in r
    ensures forall p :: multiset(r)[p] == if PersonasPage.NameMatches(p, busqueda) then multiset(personas)[p] else 0
  {
    Filter(personas, SearchFor(busqueda))
  }

  /** An empty search lists every candidate. */
  lemma EmptySearchKeepsAll(personas: seq<Persona>)
    ensures PersonasFiltradas(personas, "") == personas
  {
    FilterAll(personas, SearchFor(""));
  }

  /** The search ignores the case of ASCII letters in the term. */
  lemma SearchCaseInsensitive(personas: seq<Persona>, busqueda: string)
    ensures PersonasFiltradas(personas, Upper(busqueda)) == PersonasFiltradas(personas, busqueda)
  {
    LowerUpper(busqueda);
    FilterExt(personas, SearchFor(Upper(busqueda)), SearchFor(busqueda));
  }

  /** The path the page posts to for the selected value. */
  function AssociationPath(personaSeleccionada: string): string
  {
    "/personas/" + personaSeleccionada + "/asociar-nfc"
  }

  /** For a selection holding a person's id in decimal, the page posts to `API_ROUTES.PERSONAS.ASOCIAR_NFC(id)`. */
  lemma AssociationPathIsRoute(id: int)
    ensures AssociationPath(Decimal.IntToString(id)) == ApiRoutes.AsociarNfc(id)
  {
  }

  /** `error.response?.data?.message || 'Error al asociar tarjeta NFC'`. */
  function AssociateErrorToast(e: AxiosError): (t: Toast)
    ensures t.destructive && t.description != ""
    ensures ServerMessage(e).None? ==> t.description == AssociateFailedMessage
  {
    Toast("Error", if ServerMessage(e).Some? then ServerMessage(e).value else AssociateFailedMessage, true)
  }

  class AsociarNfc {
    var personas: seq<Persona>
    var personaSeleccionada: string
    var uidManual: string
    var loading: bool
    var scanning: bool
    var lastScanResult: Option<string>
    var busqueda: string
    var toasts: seq<Toast>
    var posts: seq<Post>

    /** Every listed person is a candidate. */
    predicate Valid()
      reads this
    {
      forall i :: 0 <= i < |personas| ==> IsCandidate(personas[i])
    }

    /** The initial state of the page's hooks. */
    constructor ()
      ensures Valid()
      ensures personas == [] && personaSeleccionada == "" && uidManual == "" && busqueda == ""
      ensures loading && !scanning && lastScanResult.None? && toasts == [] && posts == []
    {
      personas := [];
      personaSeleccionada := "";
      uidManual := "";
      loading := true;
      scanning := false;
      lastScanResult := None;
      busqueda := "";
      toasts := [];
      posts := [];
    }

    /**
     * `cargarPersonas`: an array reply replaces the list with its candidates;
     * a failed request, or a reply that is not an array (its `.filter`
     * throws), shows the load-error toast and keeps the list.
     */
    method CargarPersonas(reply: Result<Json<Persona>, AxiosError>)
      requires Valid()
      modifies this
      ensures Valid() && !loading
      ensures reply.Ok? && reply.value.Arr? ==>
        personas == Candidates(reply.value.items) && toasts == old(toasts)
      ensures !(reply.Ok? && reply.value.Arr?) ==>
        personas == old(personas) && toasts == old(toasts) + [LoadErrorToast]
      ensures personaSeleccionada == old(personaSeleccionada) && uidManual == old(uidManual)
      ensures scanning == old(scanning) && lastScanResult == old(lastScanResult)
      ensures busqueda == old(busqueda) && posts == old(posts)
    {
      loading := true;
      if reply.Ok? && reply.value.Arr? {
        personas := Candidates(reply.value.items);
      } else {
        toasts := toasts + [LoadErrorToast];
      }
      loading := false;
    }

    /**
     * `iniciarEscaneo`: on an unsupported device no scan is made; a
     * successful scan puts its UID into both `lastScanResult` and
     * `uidManual`; a failed one shows its error, or a fixed message.
     */
    method IniciarEscaneo(manager: WebNfc.NfcManager, picks: seq<WebNfc.DigitIndex>)
      requires |picks| == WebNfc.UidLength
      modifies this
      ensures !scanning
      ensures !manager.supported ==>
        lastScanResult.None? && uidManual == old(uidManual) && toasts == old(toasts) + [UnsupportedToast]
      ensures manager.supported && !manager.enabled ==>
        lastScanResult.None? && uidManual == old(uidManual)
        && toasts == old(toasts) + [Toast("Error", WebNfc.UnsupportedMessage, true)]
      ensures manager.supported && manager.enabled ==>
        lastScanResult == Some(Bytes.Hex(WebNfc.PickedBytes(picks))) && uidManual == lastScanResult.value
        && toasts == old(toasts) + [Toast("Tarjeta detectada", "UID: " + uidManual, false)]
      ensures lastScanResult.Some? ==> uidManual == lastScanResult.value
      ensures personas == old(personas) && personaSeleccionada == old(personaSeleccionada)
      ensures loading == old(loading) && busqueda == old(busqueda) && posts == old(posts)
    {
      scanning := true;
      lastScanResult := None;
      if !manager.IsSupported() {
        toasts := toasts + [UnsupportedToast];
        scanning := false;
        return;
      }
      var result := manager.StartScan(picks);
      if result.success && Truthy(result.uid) {
        lastScanResult := result.uid;
        uidManual := result.uid.value;
        toasts := toasts + [Toast("Tarjeta detectada", "UID: " + result.uid.value, false)];
      } else {
        var description := if Truthy(result.error) then result.error.value else ReadFailedMessage;
        toasts := toasts + [Toast("Error", description, true)];
      }
      scanning := false;
    }

    /** The UID input's `onChange`: the typed text, upper-cased. */
    method OnUidInput(text: string)
      modifies this
      ensures uidManual == Upper(text)
      ensures personas == old(personas) && personaSeleccionada == old(personaSeleccionada)
      ensures loading == old(loading) && scanning == old(scanning) && lastScanResult == old(lastScanResult)
      ensures busqueda == old(busqueda) && toasts == old(toasts) && posts == old(posts)
    {
      uidManual := Upper(text);
    }

    /**
     * `asociarNFC`: without a selection or a UID no request is made and,
     * since the check comes before the `try`, `loading` is untouched; else
     * the UID is posted for the selection. Success clears the selection, the
     * UID and the last scan and reloads the list; failure shows the server's
     * message or a fixed one and keeps the form.
     */
    method AsociarNfc(reply: Result<(), AxiosError>, reload: Result<Json<Persona>, AxiosError>)
      requires Valid()
      modifies this
      ensures Valid()
      ensures old(personaSeleccionada) == "" || old(uidManual) == "" ==>
        posts == old(posts) && toasts == old(toasts) + [MissingInputToast] && loading == old(loading)
        && personaSeleccionada == old(personaSeleccionada) && uidManual == old(uidManual)
        && lastScanResult == old(lastScanResult) && personas == old(personas)
      ensures old(personaSeleccionada) != "" && old(uidManual) != "" ==>
        !loading && posts == old(posts) + [Post(AssociationPath(old(personaSeleccionada)), old(uidManual))]
      ensures old(personaSeleccionada) != "" && old(uidManual) != "" && reply.Ok? ==>
        personaSeleccionada == "" && uidManual == "" && lastScanResult.None?
        && (reload.Ok? && reload.value.Arr? ==>
              personas == Candidates(reload.value.items) && toasts == old(toasts) + [AssociatedToast])
        && (!(reload.Ok? && reload.value.Arr?) ==>
              personas == old(personas) && toasts == old(toasts) + [AssociatedToast, LoadErrorToast])
      ensures old(personaSeleccionada) != "" && old(uidManual) != "" && reply.Err? ==>
        personaSeleccionada == old(personaSeleccionada) && uidManual == old(uidManual)
        && lastScanResult == old(lastScanResult) && personas == old(personas)
        && toasts == old(toasts) + [AssociateErrorToast(reply.error)]
      ensures scanning == old(scanning) && busqueda == old(busqueda)
    {
      if personaSeleccionada == "" || uidManual == "" {
        toasts := toasts + [MissingInputToast];
        return;
      }
      loading := true;
      posts := posts + [Post(AssociationPath(personaSeleccionada), uidManual)];
      if reply.Ok? {
        toasts := toasts + [AssociatedToast];
        personaSeleccionada := "";
        uidManual := "";
        lastScanResult := None;
        CargarPersonas(reload);
      } else {
        toasts := toasts + [AssociateErrorToast(reply.error)];
      }
      loading := false;
    }
  }
}
