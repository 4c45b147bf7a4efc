/**
 * The error message `src/pages/RegisterDevice.tsx` shows when registering
 * the device fails: chosen from the axios error's response status, its body,
 * whether a request went out, and the error's own message.
 */
module RegisterDevicePage {
  import opened Base
  import opened Text
  import opened Responses

  const DefaultMessage: string := "Error al registrar el dispositivo"
  const InvalidPrefix: string := "Datos inválidos: "
  const NotFoundMessage: string := "Usuario no encontrado"
  const BadCredentialsMessage: string := "Credenciales incorrectas"
  const AlreadyRegisteredMessage: string := "Este dispositivo ya está registrado"
  const ConnectionMessage: string := "Error de conexión. Verifica tu internet."

  /** `Object.values(errors).flat()`: every field's messages, field by field. */
  function Flatten(errors: seq<FieldErrors>): (r: seq<string>)
    ensures |r| == if errors == [] then 0 else |errors[0].messages| + |Flatten(errors[1..])|
  {
    if errors == [] then [] else errors[0].messages + Flatten(errors[1..])
  }

  /** Every message of every field is in the flattened list. */
  lemma {:induction false} FlattenHasAll(errors: seq<FieldErrors>, i: nat, j: nat)
    requires i < |errors| && j < |errors[i].messages|
    ensures errors[i].messages[j] in Flatten(errors)
    decreases |errors|
  {
    if i == 0 {
      assert Flatten(errors)[j] == errors[0].messages[j];
    } else {
      FlattenHasAll(errors[1..], i - 1, j);
    }
  }

  /** The messages after "Datos inválidos: ": the field errors joined by ", ", or nothing. */
  function ValidationDetail(data: Option<ErrorBody>): string
  {
    if data.Some? && data.value.errors.Some? then Join(Flatten(data.value.errors.value), ", ") else ""
  }

  /** The message fixed for a status, if the page fixes one. */
  function StatusMessage(response: HttpResponse): Option<string>
  {
    if response.status == 422 then Some(InvalidPrefix + ValidationDetail(response.data))
    else if response.status == 404 then Some(NotFoundMessage)
    else if response.status == 401 then Some(BadCredentialsMessage)
    else if response.status == 409 then Some(AlreadyRegisteredMessage)
    else None
  }

  /** The catch block of `handleSubmit`: the message passed to `alert`, never empty. */
  function ErrorMessage(e: AxiosError): (r: string)
    ensures r != ""
  {
    if e.response.Some? then
      var fromServer := if ServerMessage(e).Some? then ServerMessage(e).value else DefaultMessage;
      var fixed := StatusMessage(e.response.value);
      if fixed.Some? then fixed.value else fromServer
    else if e.request then ConnectionMessage
    else if Truthy(e.message) then e.message.value
    else DefaultMessage
  }

  /** 404, 401 and 409 give their fixed messages whatever the server said. */
  lemma FixedStatusesOverrideServer(e: AxiosError)
    requires e.response.Some? && e.response.value.status in {404, 401, 409}
    ensures e.response.value.status == 404 ==> ErrorMessage(e) == NotFoundMessage
    ensures e.response.value.status == 401 ==> ErrorMessage(e) == BadCredentialsMessage
    ensures e.response.value.status == 409 ==> ErrorMessage(e) == AlreadyRegisteredMessage
    ensures forall body :: ErrorMessage(e.(response := Some(e.response.value.(data := body)))) == ErrorMessage(e)
  {
  }

  /**
   * 422 gives "Datos inválidos: " followed by the field messages, each of
   * which appears in it; without an errors object the tail is empty.
   */
  lemma ValidationListsAll(e: AxiosError)
    requires e.response.Some? && e.response.value.status == 422
    ensures ErrorMessage(e) == InvalidPrefix + ValidationDetail(e.response.value.data)
    ensures e.response.value.data.None? || e.response.value.data.value.errors.None? ==>
      ErrorMessage(e) == InvalidPrefix
    ensures e.response.value.data.Some? && e.response.value.data.value.errors.Some? ==>
      var errs := e.response.value.data.value.errors.value;
      forall i, j :: 0 <= i < |errs| && 0 <= j < |errs[i].messages| ==> Contains(ErrorMessage(e), errs[i].messages[j])
  {
    var data := e.response.value.data;
    if data.Some? && data.value.errors.Some? {
      var errs := data.value.errors.value;
      var parts := Flatten(errs);
      forall i, j | 0 <= i < |errs| && 0 <= j < |errs[i].messages| ensures Contains(ErrorMessage(e), errs[i].messages[j]) {
        var m := errs[i].messages[j];
        FlattenHasAll(errs, i, j);
        var k :| 0 <= k < |parts| && parts[k] == m;
        JoinContains(parts, ", ", k);
        var detail := Join(parts, ", ");
        var pos :| 0 <= pos <= |detail| && IsPrefix(m, detail[pos..]);
        assert (InvalidPrefix + detail)[|InvalidPrefix| + pos..] == detail[pos..];
      }
    }
  }

  /** Any other status shows the server's message when it has one, else the default. */
  lemma OtherStatusUsesServer(e: AxiosError)
    requires e.response.Some? && e.response.value.status !in {422, 404, 401, 409}
    ensures ServerMessage(e).Some? ==> ErrorMessage(e) == ServerMessage(e).value
    ensures ServerMessage(e).None? ==> ErrorMessage(e) == DefaultMessage
  {
  }

  /**
   * Without a response, a request that went out means a connection error;
   * otherwise the error's own message, else the default.
   */
  lemma NoResponse(e: AxiosError)
    requires e.response.None?
    ensures e.request ==> ErrorMessage(e) == ConnectionMessage
    ensures !e.request && Truthy(e.message) ==> ErrorMessage(e) == e.message.value
    ensures !e.request && !Truthy(e.message) ==> ErrorMessage(e) == DefaultMessage
  {
  }

  /** With a response, neither the request flag nor the error's own message matters. */
  lemma ResponseDecides(e: AxiosError, request: bool, message: Option<string>)
    requires e.response.Some?
    ensures ErrorMessage(e.(request := request, message := message)) == ErrorMessage(e)
  {
  }
}
