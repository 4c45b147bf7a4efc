# asistencia-nfc-hub — a Dafny model of the attendance client's logic

The system is the client of a youth centre's attendance service. Persons carry an NFC card. The client has three ways of reading a card's UID:

- a Capacitor plugin on Android (`NfcPlugin.java`);
- a reader-mode plugin (`NfcUidReader.java`);
- Web NFC in the browser (`NfcScanner.tsx`, `nfc-native.ts`).

It also has a simulated reader for web development (`nfc.ts`). UIDs are rendered as upper-case hexadecimal, sometimes with colons.

The pages do four things:

- list attendances and persons under filters;
- associate a card with a person;
- register the device;
- turn the remote API's replies into lists and messages.

This project models that logic in Dafny and proves what it promises. It covers:

- the UID encoders and formatters;
- the plugins' small state machines;
- tag-type classification;
- the pages' filters, query building, reply unwrapping and error messages;
- the REST path builders;
- the record types.

Module by module:

- `Base`, `Text`, `Seqs`, `Bytes`, `Decimal`: the JavaScript and Java primitives the code relies on. These are:
  - truthiness;
  - ASCII `toUpperCase`/`toLowerCase`, `includes`, `trim` and `join`;
  - `filter`;
  - `%02X` on a signed Java byte;
  - `${n}` for integers.
- `Types`: the records of `src/types/index.ts`.
- `Responses`: reply bodies as JSON values, and the axios error.
- `NfcNative`: `src/lib/nfc-native.ts`.
- `AndroidNfc`: `NfcPlugin.java`. It is a class with the adapter, the `isScanning` flag and the events sent to JavaScript.
- `UidReader`: `NfcUidReader.java`. It is a class with the single `savedCall` slot and logs of the calls resolved and rejected.
- `WebNfc`: the simulated `NFCManager` of `src/lib/nfc.ts`.
- `WebNfcScanner`: `src/components/NfcScanner.tsx`. The component's state is a class and the UID extraction is methods.
- `AsistenciasPage`, `PersonasPage`, `AsociarNfcPage`, `RegisterDevicePage`: the pages.
- `GruposLib`: `src/lib/grupos.ts`.
- `ApiRoutes`: `src/lib/api-routes.ts`.

Replies of the remote API, random draws, and whether the device or browser has NFC are all parameters. Plugin calls are numbers. Toasts, requests and events are logged in sequence fields.

## Model

| member | source | states |
|---|---|---|
| Bytes.Hex | android/app/src/main/java/com/centrojuvenil/nfc/NfcPlugin.java:157-163 | the hex text of n bytes has 2n characters, each an upper-case hexadecimal digit |
| Bytes.HexRoundTrip | android/app/src/main/java/com/centrojuvenil/nfc/NfcPlugin.java:157-163 | parsing the hex text of any bytes gives those bytes back |
| Bytes.HexInjective | android/app/src/main/java/com/centrojuvenil/nfc/NfcPlugin.java:157-163 | distinct byte strings have distinct hex texts |
| Bytes.JavaHexRoundTrip | android/app/src/main/java/com/centrojuvenil/nfc/NfcPlugin.java:160 | `%02X` of a signed byte renders its unsigned value, and the signed bytes are recovered from the text |
| Bytes.HexWithColonsShape | android/app/src/main/java/com/centrojuvenil/nfc/NfcPlugin.java:166-173 | the colon form has length 3n-1 (0 for no bytes); position k holds ':' exactly when k mod 3 is 2, so there are n-1 colons; deleting them gives the plain hex of the same bytes |
| Bytes.HexWithColonsChars | android/app/src/main/java/com/centrojuvenil/nfc/NfcPlugin.java:166-173 | every character of the colon form is a hex digit or ':' |
| Decimal.IntRoundTrip | src/lib/api-routes.ts:14 | the decimal text `${id}` of any integer parses back to it |
| Decimal.IntToStringInjective | src/lib/api-routes.ts:14 | distinct integers have distinct decimal texts |
| Types.ParseTipo | src/types/index.ts:15 | a parsed person type renders back to the text it came from |
| Types.TipoRoundTrip | src/types/index.ts:15 | each person type is parsed back from its name |
| Types.TipoNames | src/types/index.ts:15 | exactly "hijo", "animador" and "adulto" name a person type |
| Types.ParseSexo | src/types/index.ts:16 | a parsed sex renders back to the text it came from |
| Types.SexoRoundTrip | src/types/index.ts:16 | each sex is parsed back from its name |
| Types.ParseTipoAsistencia | src/types/index.ts:53 | a parsed attendance type renders back to the text it came from |
| Types.TipoAsistenciaRoundTrip | src/types/index.ts:53 | each attendance type is parsed back from its name |
| Responses.Get | src/lib/grupos.ts:13 | reading a property of a non-object, non-nullish value gives undefined |
| Responses.ServerMessage | src/pages/RegisterDevice.tsx:62 | `error.response?.data?.message` is used only when a response exists and the message is non-empty |
| NfcNative.RegexPairs | src/lib/nfc-native.ts:12 | `/.{1,2}/g` yields chunks of one or two characters, each taken from the input and never a line terminator |
| NfcNative.FormatUid | src/lib/nfc-native.ts:4-14 | the formatted UID is empty exactly when the input is empty |
| NfcNative.RegexPairsArePairs | src/lib/nfc-native.ts:12 | on text without line terminators the regex cuts plain left-to-right pairs, the last one short for an odd length |
| NfcNative.RegexPairsEmpty | src/lib/nfc-native.ts:12 | the match is null exactly when every character is a line terminator |
| NfcNative.JoinedPairs | src/lib/nfc-native.ts:12 | joining the pairs of a colon-free text of length n inserts ceil(n/2)-1 colons, and deleting them gives the text back |
| NfcNative.FormatUidPairs | src/lib/nfc-native.ts:10-12 | a colon-free UID is chunked, joined with ':' and upper-cased; it gets ceil(n/2)-1 colons, and deleting them gives the upper-cased input |
| NfcNative.FormatUidIdempotent | src/lib/nfc-native.ts:6-12 | formatting a formatted UID changes nothing, for any input characters |
| NfcNative.FormatUidOfHex | src/lib/nfc-native.ts:4-14 | formatting the plugins' plain hex UID gives exactly the Java colon form of the same bytes |
| NfcNative.PairsOfHex | src/lib/nfc-native.ts:12 | the pairs of a hex UID joined by ':' are the colon form of its bytes |
| NfcNative.PairsOfPieces | src/lib/nfc-native.ts:12 | pieces of two characters, the last of one or two, are exactly what the text they spell is cut into |
| NfcNative.FormatUidOfPieces | src/lib/nfc-native.ts:10-12 | a colon-free UID spelled by such pieces formats to the pieces joined by ':' and upper-cased |
| NfcNative.FormatUidExample | src/lib/nfc-native.ts:11-12 | "C4DEC42D" formats to "C4:DE:C4:2D" |
| NfcNative.FormatUidNoValidation | plugins/capacitor-nfc-uid-reader/android/src/main/java/com/uidnfc/reader/NfcUidReaderPlugin.java:22 | the stub UID "FAKE-UID-12345678" passes unvalidated and formats to "FA:KE:-U:ID:-1:23:45:67:8" |
| NfcNative.WebScanResolves | src/lib/nfc-native.ts:62-114 | a Web NFC scan resolves exactly when the API exists, a reading arrives and serialNumber, id or uid is non-empty; the value is the first such field, formatted; without the API it rejects with the fixed message |
| NfcNative.NativeScanRules | src/lib/nfc-native.ts:17-59 | a native scan succeeds only where `isNfcAvailable` is true; off a native platform it refuses with the fixed message; every later failure carries the prefix "Error leyendo NFC UID: ", including a read that resolves without a UID (`formatUID(undefined)` throws); a resolved UID is already in formatted form |
| AndroidNfc.GetTagType | android/app/src/main/java/com/centrojuvenil/nfc/NfcPlugin.java:140-155 | the tag type is one of the fixed names, and "Unknown" for an empty technology list |
| AndroidNfc.GetTagTypeNeverNdefFormatable | android/app/src/main/java/com/centrojuvenil/nfc/NfcPlugin.java:151-152 | "NdefFormatable" is never returned, because "Ndef" is tested first |
| AndroidNfc.GetTagTypeFirstOnly | android/app/src/main/java/com/centrojuvenil/nfc/NfcPlugin.java:141-143 | only the first technology name decides the type |
| AndroidNfc.TagPayloadAliases | android/app/src/main/java/com/centrojuvenil/nfc/NfcPlugin.java:106-125 | uid, tagId, serialNumber and nfcTag.id are the same colon-free hex string of 2n characters, which parses back to the ID bytes; the type is never NdefFormatable |
| AndroidNfc.NfcPlugin.constructor | android/app/src/main/java/com/centrojuvenil/nfc/NfcPlugin.java:34-38 | the plugin loads with its adapter, not scanning, and with no events sent |
| AndroidNfc.NfcPlugin.StartScan | android/app/src/main/java/com/centrojuvenil/nfc/NfcPlugin.java:48-68 | rejected, with the flag and events unchanged, exactly when `isEnabled` is false, with one message for no adapter and one for a disabled one; otherwise the flag is set, the call resolves with success and scanStarted is sent |
| AndroidNfc.NfcPlugin.StopScan | android/app/src/main/java/com/centrojuvenil/nfc/NfcPlugin.java:70-80 | always clears the flag, resolves with success and sends scanStopped |
| AndroidNfc.NfcPlugin.HandleOnNewIntent | android/app/src/main/java/com/centrojuvenil/nfc/NfcPlugin.java:83-101 | a tag is reported only while scanning, for a TAG/TECH/NDEF_DISCOVERED intent carrying a tag; otherwise nothing changes; the flag is never reset |
| AndroidNfc.NfcPlugin.ProcessNfcTag | android/app/src/main/java/com/centrojuvenil/nfc/NfcPlugin.java:103-138 | the payload built is the tag's payload, whose aliases the lemma above describes |
| AndroidNfc.NfcPlugin.BytesToHex | android/app/src/main/java/com/centrojuvenil/nfc/NfcPlugin.java:157-163 | the loop yields two upper-case digits per byte, negative bytes rendered unsigned; its length is 2n |
| AndroidNfc.NfcPlugin.BytesToHexWithColons | android/app/src/main/java/com/centrojuvenil/nfc/NfcPlugin.java:166-173 | the loop yields the colon form of the unsigned bytes |
| AndroidNfc.EncodersAgree | android/app/src/main/java/com/centrojuvenil/nfc/NfcPlugin.java:157-173 | the colon form is "" or 3n-1 long, and deleting its colons gives the plain hex of the same bytes |
| UidReader.NfcUidReader.constructor | plugins/capacitor-nfc-uid-reader/android/src/main/java/com/eule/nfcuidreader/NfcUidReader.java:23-25 | no adapter, no pending call, reader mode off, nothing resolved or rejected |
| UidReader.NfcUidReader.StartReading | plugins/capacitor-nfc-uid-reader/android/src/main/java/com/eule/nfcuidreader/NfcUidReader.java:27-42 | without an adapter the call is rejected and not stored; otherwise it becomes the single pending call, abandoning any earlier one, and reader mode is on; no call is ever resolved twice |
| UidReader.NfcUidReader.OnTagDiscovered | plugins/capacitor-nfc-uid-reader/android/src/main/java/com/eule/nfcuidreader/NfcUidReader.java:44-62 | with no pending call nothing changes; otherwise the pending call is resolved once with two upper-case hex digits per ID byte, the slot is cleared, and reader mode is turned off when an adapter and an activity exist |
| UidReader.NfcUidReader.HandleOnDestroy | plugins/capacitor-nfc-uid-reader/android/src/main/java/com/eule/nfcuidreader/NfcUidReader.java:64-71 | reader mode is turned off whenever an adapter and an activity exist; the pending slot is kept |
| WebNfc.PickedDigitsAreHex | src/lib/nfc.ts:64-72 | the drawn digits spell the hex text of the bytes they pair into, and read back as those bytes |
| WebNfc.NfcManager.constructor | src/lib/nfc.ts:18-27 | both flags are on after construction |
| WebNfc.NfcManager.StartScan | src/lib/nfc.ts:37-57 | unless both flags are on: failure, the fixed error and no uid; otherwise success with an 8-digit hex uid and no error |
| WebNfc.NfcManager.StopScan | src/lib/nfc.ts:59-62 | changes no state |
| WebNfc.NfcManager.GenerateSimulatedUid | src/lib/nfc.ts:64-72 | exactly 8 characters, each the drawn character of "0123456789ABCDEF"; no colon; the hex text of the paired digits |
| WebNfc.NfcManager.ScanWithUid | src/lib/nfc.ts:75-84 | success with the given uid unchanged |
| WebNfcScanner.UidPrefix | src/components/NfcScanner.tsx:101 | the bytes used are the first min(n, 8) of the data |
| WebNfcScanner.FirstData | src/components/NfcScanner.tsx:95-107 | the data used comes from a record of the message |
| WebNfcScanner.PaddedDigits | src/components/NfcScanner.tsx:102-104 | `toString(16).padStart(2, '0')`, upper-cased, is the two-digit hex of the byte |
| WebNfcScanner.BytesToUid | src/components/NfcScanner.tsx:99-104 | the loop yields the upper-case hex of the first min(n, 8) bytes, at most 16 characters |
| WebNfcScanner.RecordsUid | src/components/NfcScanner.tsx:94-109 | the first record with data decides the UID; with no such record there is none |
| WebNfcScanner.ReadUid | src/components/NfcScanner.tsx:86-119 | the reading handler's UID equals the extraction rule of the lemmas below |
| WebNfcScanner.ExtractUidShape | src/components/NfcScanner.tsx:88-119 | a present serialNumber is the UID verbatim; otherwise the UID is at most 16 hex digits of record or event data |
| WebNfcScanner.RecordsShadowData | src/components/NfcScanner.tsx:94-119 | when records exist but none has data, no UID is found even if `event.data` is present |
| WebNfcScanner.FirstDataIgnoresLater | src/components/NfcScanner.tsx:97-106 | records after the first one with data are never looked at |
| WebNfcScanner.EmptyDataRefused | src/components/NfcScanner.tsx:111-136 | empty event data gives the UID "", which is refused |
| WebNfcScanner.StartErrorMessage | src/components/NfcScanner.tsx:159-167 | the start error is one of four fixed messages, and 'permission' wins over the other tests |
| WebNfcScanner.UnsupportedGetsDefault | src/components/NfcScanner.tsx:60-62 | the error thrown when NFC is missing matches none of the three tests and gets the default message |
| WebNfcScanner.NfcScanner.constructor | src/components/NfcScanner.tsx:31-44 | support is whether `NDEFReader` exists; without it the manual-input error is shown with manual input |
| WebNfcScanner.NfcScanner.StartScanning | src/components/NfcScanner.tsx:54-173 | clears error and UID; a failure, including missing support, stops scanning, sets the classified message and shows manual input; otherwise scanning is on |
| WebNfcScanner.NfcScanner.OnReading | src/components/NfcScanner.tsx:74-137 | an acceptable UID (truthy and not "unknown") is stored; otherwise the unreadable-UID error and manual input are shown; scanning stops either way |
| WebNfcScanner.NfcScanner.OnReadingError | src/components/NfcScanner.tsx:139-144 | sets the read error, stops scanning and shows manual input |
| WebNfcScanner.NfcScanner.StopScanning | src/components/NfcScanner.tsx:175-178 | stops scanning and clears the error; nothing else changes |
| WebNfcScanner.NfcScanner.HandleRetry | src/components/NfcScanner.tsx:194-202 | clears error, scanned and manual UID and hides manual input, then starts a scan only when supported |
| WebNfcScanner.NfcScanner.HandleConfirm | src/components/NfcScanner.tsx:180-192 | passes the trimmed scanned UID, or else the manual one, and never an empty one |
| WebNfcScanner.NfcScanner.HandleManualSubmit | src/components/NfcScanner.tsx:204-215 | passes the trimmed manual UID, never an empty one |
| WebNfcScanner.NfcScanner.ConfirmRules | src/components/NfcScanner.tsx:180-192 | a UID is passed exactly when the chosen text is not blank, and a scanned UID always takes precedence |
| AsistenciasPage.FiltrosEdadContiguous | src/pages/Asistencias.tsx:52-59 | the predefined ranges are non-empty, each starts one year after the previous one ends, and they span 8 to 100 |
| AsistenciasPage.ContiguousAscending | src/pages/Asistencias.tsx:52-59 | contiguous ranges ascend strictly |
| AsistenciasPage.ContiguousCover | src/pages/Asistencias.tsx:52-59 | in contiguous ranges every age of the span lies in exactly one range |
| AsistenciasPage.FiltrosEdadCover | src/pages/Asistencias.tsx:52-59 | every age from 8 to 100 lies in exactly one predefined range |
| AsistenciasPage.FindByLabel | src/pages/Asistencias.tsx:74 | the range found carries the label, and none is found exactly when no range carries it |
| AsistenciasPage.AgeParamsNeverSent | src/pages/Asistencias.tsx:72-79 | neither 'sin-filtro' nor any value the age selector emits finds a range by label, so no age bounds are ever sent |
| AsistenciasPage.SelectorValuesNeverLabels | src/components/FiltroEdad.tsx:26-28 | with dash-free labels and non-negative minimums, no selector value equals a label |
| AsistenciasPage.LabelsWithoutDash | src/pages/Asistencias.tsx:52-59 | no predefined label holds '-', and every minimum is non-negative |
| AsistenciasPage.FindBySelectorValue | src/components/FiltroEdad.tsx:28 | the corrected lookup finds a range whose selector value matches, and none exactly when no range's value matches |
| AsistenciasPage.SelectorValueInjective | src/components/FiltroEdad.tsx:28 | a selector value fixes both bounds of a range with a non-negative minimum |
| AsistenciasPage.ContiguousSelect | src/components/FiltroEdad.tsx:28 | in contiguous ranges with non-negative minimums, each range is found by its own selector value |
| AsistenciasPage.SelectorValueSelects | src/components/FiltroEdad.tsx:28 | with the corrected lookup, every predefined range is found by the value the selector emits for it |
| AsistenciasPage.Lookup | src/pages/Asistencias.tsx:70-83 | `params.get(key)` finds nothing exactly when no parameter has that key |
| AsistenciasPage.LookupConcat | src/pages/Asistencias.tsx:70-83 | on appended parameters `get` answers from the earlier ones first |
| AsistenciasPage.ParamsForOrdered | src/pages/Asistencias.tsx:71-82 | the keys appear at most once each, in the order fecha, edad_min, edad_max, grupo_id, busqueda |
| AsistenciasPage.ParamsForLookups | src/pages/Asistencias.tsx:71-82 | fecha is sent when set; edad_min and edad_max together, with the bounds of the range whose label is selected, or neither; grupo_id exactly when non-empty and not 'sin-filtro'; busqueda when set |
| AsistenciasPage.BuildParams | src/pages/Asistencias.tsx:70-82 | the parameters appended are those described by the two lemmas above |
| AsistenciasPage.UnwrapListShapes | src/pages/Asistencias.tsx:88-97 | a top-level array is used; else an array at data.data; else one at data.asistencias (data.grupos for groups); else [] |
| AsistenciasPage.UnwrapListEmpty | src/pages/Asistencias.tsx:87-97 | a missing body or a scalar body gives [] |
| AsistenciasPage.CargarAsistencias | src/pages/Asistencias.tsx:66-112 | the query sent keeps the key order and sends the wanted values; the entries kept are the unwrapped reply, and none when the request fails |
| AsistenciasPage.CargarGrupos | src/pages/Asistencias.tsx:114-139 | a failed request leaves no groups; a top-level array is used as it is |
| AsistenciasPage.AsistenciasFiltradas | src/pages/Asistencias.tsx:218-236 | an order-preserving sublist; every entry kept has a persona and matches a non-empty search; every such entry is kept, as many times as it occurs in the input |
| AsistenciasPage.EmptySearchKeepsDeclared | src/pages/Asistencias.tsx:218-225 | an empty search keeps exactly the entries that have a persona |
| AsistenciasPage.SearchNarrows | src/pages/Asistencias.tsx:225-233 | any search result is a sublist of the empty-search result |
| AsistenciasPage.SearchCaseInsensitive | src/pages/Asistencias.tsx:226-230 | the search ignores the case of ASCII letters in the term |
| PersonasPage.PersonasFiltradas | src/pages/Personas.tsx:42-52 | an order-preserving sublist of active persons passing type, age and name filters; every such person is kept, as many times as listed |
| PersonasPage.EdadPartition | src/pages/Personas.tsx:44-46 | with the other filters fixed, the 'menor18' and 'mayor18' results are sublists of the 'todos' result and their lengths add up to its length |
| PersonasPage.UnknownEdadSelectsNobody | src/pages/Personas.tsx:44-46 | an age value other than 'todos', 'menor18' and 'mayor18' selects nobody |
| PersonasPage.UndeclaredTipoSelectsNobody | src/pages/Personas.tsx:43 | a type value other than 'todos' that names no declared type selects nobody |
| PersonasPage.NinoJovenSelectNobody | src/pages/Personas.tsx:104-107 | the selector's 'niño' and 'joven' entries select nobody |
| PersonasPage.SearchNarrows | src/pages/Personas.tsx:47-49 | any search result is a sublist of the empty-search result |
| PersonasPage.SearchCaseInsensitive | src/pages/Personas.tsx:47-49 | the search ignores the case of ASCII letters in the term |
| PersonasPage.OpenFiltersKeepActive | src/pages/Personas.tsx:42-52 | with every filter open exactly the active persons are listed |
| AsociarNfcPage.Candidates | src/pages/AsociarNFC.tsx:33 | an order-preserving sublist of the reply holding each active person without an nfc_uid exactly as many times as the reply lists them, and nobody else |
| AsociarNfcPage.CandidatesExactly | src/pages/AsociarNFC.tsx:33 | a person is a candidate exactly when listed, active and without an nfc_uid |
| AsociarNfcPage.PersonasFiltradas | src/pages/AsociarNFC.tsx:128-132 | an order-preserving sublist of the persons whose nombre or apellido contains the search, case-insensitively; every such person is kept, as many times as listed |
| AsociarNfcPage.EmptySearchKeepsAll | src/pages/AsociarNFC.tsx:129 | an empty search lists every candidate |
| AsociarNfcPage.SearchCaseInsensitive | src/pages/AsociarNFC.tsx:130-131 | the search ignores the case of ASCII letters in the term |
| AsociarNfcPage.AssociationPathIsRoute | src/pages/AsociarNFC.tsx:101 | for a selection holding an id in decimal, the page posts to `API_ROUTES.PERSONAS.ASOCIAR_NFC(id)` |
| AsociarNfcPage.AssociateErrorToast | src/pages/AsociarNFC.tsx:117 | the failure message is never empty and is the fixed one when the server gives none |
| AsociarNfcPage.AsociarNfc.constructor | src/pages/AsociarNFC.tsx:15-21 | the hooks' initial state |
| AsociarNfcPage.AsociarNfc.CargarPersonas | src/pages/AsociarNFC.tsx:28-44 | an array reply replaces the list with its candidates; any other reply or a failure shows the load error and keeps the list; every listed person stays a candidate |
| AsociarNfcPage.AsociarNfc.IniciarEscaneo | src/pages/AsociarNFC.tsx:46-87 | an unsupported device makes no scan; a successful scan puts the same UID in the last scan result and the UID field; a failed one shows its error; scanning ends off |
| AsociarNfcPage.AsociarNfc.OnUidInput | src/pages/AsociarNFC.tsx:196 | the typed UID is stored upper-cased |
| AsociarNfcPage.AsociarNfc.AsociarNfc | src/pages/AsociarNFC.tsx:89-126 | without a selection or a UID no request is sent and `loading` is untouched, the check coming before the `try`; otherwise exactly one POST carries the UID and `loading` ends false; success clears selection, UID and last scan and reloads; failure keeps the form and shows the server or fixed message |
| RegisterDevicePage.Flatten | src/pages/RegisterDevice.tsx:65 | the flattened list holds as many messages as all fields together |
| RegisterDevicePage.FlattenHasAll | src/pages/RegisterDevice.tsx:65 | every message of every field is in the flattened list |
| RegisterDevicePage.ErrorMessage | src/pages/RegisterDevice.tsx:50-83 | the message alerted is never empty |
| RegisterDevicePage.FixedStatusesOverrideServer | src/pages/RegisterDevice.tsx:62-72 | 404, 401 and 409 give their fixed messages, whatever body the server sent |
| RegisterDevicePage.ValidationListsAll | src/pages/RegisterDevice.tsx:64-65 | 422 gives "Datos inválidos: " and the joined field messages, every one of which appears in it; without an errors object the tail is empty |
| RegisterDevicePage.OtherStatusUsesServer | src/pages/RegisterDevice.tsx:62 | any other status shows the server's message if present, else the default |
| RegisterDevicePage.NoResponse | src/pages/RegisterDevice.tsx:73-81 | without a response, a request that went out gives the connection message; otherwise the error's message, else the default |
| RegisterDevicePage.ResponseDecides | src/pages/RegisterDevice.tsx:56-81 | when a response exists, neither the request nor the error's own message matters |
| GruposLib.FetchGrupos | src/lib/grupos.ts:8-17 | a failed request rejects; with a reply, it rejects exactly when the body is null or undefined; a top-level array is returned unchanged |
| GruposLib.FetchGruposShapes | src/lib/grupos.ts:11-16 | an array is returned, else an array at data.data, else []; a null or undefined body rejects |
| GruposLib.PageAgrees | src/lib/grupos.ts:8-17 | where the library finds groups the attendance page finds the same ones, and where it rejects the page shows none |
| GruposLib.PageReadsGruposKey | src/pages/Asistencias.tsx:126-127 | a body with only a `grupos` array gives the page its groups but the library none |
| ApiRoutes.ConstantsAreAbsolute | src/lib/api-routes.ts:3-29 | every constant route starts with '/' |
| ApiRoutes.Deactivate | src/lib/api-routes.ts:14 | the deactivation path is absolute and longer than its fixed parts |
| ApiRoutes.AsociarNfc | src/lib/api-routes.ts:20 | the association path is absolute and longer than its fixed parts |
| ApiRoutes.GetData | src/lib/api-routes.ts:24 | the data path is "/nfc/" followed by exactly the UID's characters |
| ApiRoutes.DeactivateInjective | src/lib/api-routes.ts:14 | the id is read back from the path, so distinct ids give distinct paths |
| ApiRoutes.AsociarNfcInjective | src/lib/api-routes.ts:20 | the id is read back from the path, so distinct ids give distinct paths |
| ApiRoutes.GetDataInjective | src/lib/api-routes.ts:24 | the UID is read back from the path, so distinct UIDs give distinct paths |
| ApiRoutes.GetDataKeepsColons | src/lib/api-routes.ts:24 | a colon in the UID stays in the path, unescaped |

## Left out

- HTTP traffic: the remote API is not modelled. Each reply is a parameter (`Result` of a JSON value or an axios error), and requests are logged.
- Token, user and device-id storage, the axios interceptors and the Capacitor Device plugin are not part of this model.
- Android and Capacitor plumbing is abstracted:
  - `NfcAdapter`, `Intent`, `PluginCall`, `notifyListeners` and reader mode become fields, events and call numbers;
  - `getActivity()` and adapter lookup become boolean inputs;
  - `runOnUiThread` is treated as immediate.
- The `try/catch` in `processNfcTag` (NfcPlugin.java:132-137) is not modelled: in the model nothing inside it throws.
- `Math.random` is replaced by the drawn digit indexes, which are an input. The `setTimeout` delays of `nfc.ts` are not modelled.
- The 10-second timer in `startScanning` (NfcScanner.tsx:146-154) is not modelled. As written, it tests the state captured when the handler was created.
- `NfcScanner`'s toasts, `onClose`/`onNfcDetected` callbacks and the `isOpen` effect are not modelled. `HandleConfirm`/`HandleManualSubmit` return the UID that would be passed.
- The exception path of `iniciarEscaneo` (AsociarNFC.tsx:77-83) is not modelled: the modelled `NFCManager` never throws.
- The query string's percent-encoding is left out (`URLSearchParams.toString`). The model states which keys and values are appended, and in which order.
- Unicode case mapping is left out: `toUpperCase`/`toLowerCase` are modelled on ASCII letters only.
- Loading flags other than the association page's `loading`, React rendering, and `console` output are left out.
- `Responses.Json`: numbers are integers. Floating point is not modelled.
- `AsistenciasPage.BuildParams` takes the table of age ranges as a parameter, and `CargarAsistencias` passes the page's `FiltrosEdad`. This keeps the proofs independent of the literal table.

## Findings

| source | as written | input that shows it | evidently intended | confidence | as-written member | corrected member |
|---|---|---|---|---|---|---|
| src/pages/Asistencias.tsx:74 | the age filter's value is looked up among the ranges' labels | selecting "8 a 9 años" in the selector emits "8-9" (src/components/FiltroEdad.tsx:28), which equals no label, so no edad_min/edad_max is sent | the range whose `${edad_min}-${edad_max}` equals the selected value is found and its bounds are sent | high, not executed | AsistenciasPage.AgeParamsNeverSent | AsistenciasPage.SelectorValueSelects |
