/**
 * The Web NFC dialog `src/components/NfcScanner.tsx`: how the `reading`
 * handler extracts a UID (serialNumber, else the first record with data,
 * else `event.data`, at most eight bytes in hexadecimal), which UIDs it
 * accepts, how a failed start is described, and the dialog state that the
 * handlers and `handleRetry` set. React state setters become field updates;
 * the promise of `ndef.scan()` is settled by an input.
 */
module WebNfcScanner {
  import opened Base
  import opened Text
  import opened Bytes

  /** An NDEF record; `data` stands for the bytes of its buffer, when it has one. */
  datatype NdefRecord = NdefRecord(data: Option<seq<Byte>>)

  /** `event.message`: its `records` array may be missing. */
  datatype NdefMessage = NdefMessage(records: Option<seq<NdefRecord>>)

  /** The fields of a `reading` event the handler consults. */
  datatype ReadingEvent = ReadingEvent(
    serialNumber: Option<string>,
    message: Option<NdefMessage>,
    data: Option<seq<Byte>>)

  const MaxUidBytes: nat := 8

  const NoNfcManualMessage: string := "NFC no está disponible en este dispositivo. Puedes ingresar el UID manualmente."
  const NoNfcThrown: string := "NFC no está disponible en este dispositivo"
  const UnreadableUidMessage: string :=
    "Se detectó la tarjeta NFC pero no se pudo leer el UID. Intenta de nuevo o ingresa el UID manualmente."
  const ReadErrorMessage: string := "Error al leer la tarjeta NFC. Intenta de nuevo o ingresa el UID manualmente."
  const DefaultStartMessage: string := "Error al iniciar el escáner NFC"
  const PermissionMessage: string := "Permiso denegado para NFC. Verifica que NFC esté activado en tu dispositivo."
  const NotSupportedMessage: string := "NFC no está disponible en este dispositivo."
  const HttpsMessage: string := "NFC requiere HTTPS. La app debe estar en un servidor seguro."

  function Min(a: int, b: int): int
  {
    if a <= b then a else b
  }

  /** The bytes the loops read: the first min(byteLength, 8). */
  function UidPrefix(bs: seq<Byte>): (p: seq<Byte>)
    ensures |p| == Min(|bs|, MaxUidBytes) && p == bs[..|p|]
  {
    bs[..Min(|bs|, MaxUidBytes)]
  }

  /** The data of the first record that has some. */
  function FirstData(records: seq<NdefRecord>): (r: Option<seq<Byte>>)
    ensures r.Some? ==> exists k :: 0 <= k < |records| && records[k].data == r
  {
    if records == [] then None
    else if records[0].data.Some? then records[0].data
    else
      var r := FirstData(records[1..]);
      if r.Some? then
        var k :| 0 <= k < |records[1..]| && records[1..][k].data == r;
        assert records[k + 1].data == r;
        r
      else r
  }

  /**
   * The UID the `reading` handler settles on, with `None` for null: a truthy
   * serialNumber verbatim; otherwise, when the message has a records array,
   * the upper-case hexadecimal text of the first record with data; otherwise
   * that of `event.data`.
   */
  function ExtractUid(e: ReadingEvent): Option<string>
  {
    if Truthy(e.serialNumber) then e.serialNumber
    else if e.message.Some? && e.message.value.records.Some? then
      match FirstData(e.message.value.records.value)
      case Some(d) => Some(Hex(UidPrefix(d)))
      case None => None
    else if e.data.Some? then Some(Hex(UidPrefix(e.data.value)))
    else None
  }

  /** The handler goes on only with a truthy UID other than "unknown". */
  predicate Acceptable(uid: Option<string>)
  {
    Truthy(uid) && uid.value != "unknown"
  }

  /** `n.toString(16)` for a byte: lower-case digits, no leading zero. */
  function ToHexString(b: Byte): string
  {
    if b < 16 then [LowerChar(HexDigit(b))] else [LowerChar(HexDigit(b / 16)), LowerChar(HexDigit(b % 16))]
  }

  /** `s.padStart(2, '0')`. */
  function PadStart2(s: string): string
  {
    if |s| >= 2 then s else seq(2 - |s|, _ => '0') + s
  }

  /** Padding, joining and upper-casing the lower-case digits gives `%02X`. */
  lemma PaddedDigits(b: Byte)
    ensures Upper(PadStart2(ToHexString(b))) == HexByte(b)
  {
  }

  /**
   * The byte loop: `getUint8(i).toString(16).padStart(2, '0')` pushed for
   * the first min(byteLength, 8) bytes, then joined and upper-cased.
   */
  method BytesToUid(data: seq<Byte>) returns (uid: string)
    ensures uid == Hex(UidPrefix(data))
    ensures |uid| == 2 * Min(|data|, MaxUidBytes) <= 16
  {
    var uidBytes: seq<string> := [];
    var n := Min(|data|, MaxUidBytes);
    for i := 0 to n
      invariant |uidBytes| == i
      invariant Upper(Join(uidBytes, "")) == Hex(data[..i])
    {
      var piece := PadStart2(ToHexString(data[i]));
      PaddedDigits(data[i]);
      if uidBytes != [] {
        JoinConcat(uidBytes, [piece], "");
      }
      UpperAppend(Join(uidBytes, ""), piece);
      HexAppend(data[..i], [data[i]]);
      assert data[..i + 1] == data[..i] + [data[i]];
      uidBytes := uidBytes + [piece];
    }
    uid := Upper(Join(uidBytes, ""));
  }

  /** The records loop: the first record with data gives the UID, later ones are not looked at. */
  method RecordsUid(records: seq<NdefRecord>) returns (uid: Option<string>)
    ensures uid == (match FirstData(records) case Some(d) => Some(Hex(UidPrefix(d))) case None => None)
  {
    uid := None;
    var i := 0;
    while i < |records|
      invariant 0 <= i <= |records|
      invariant FirstData(records) == FirstData(records[i..])
      invariant uid.None?
    {
      if records[i].data.Some? {
        var s := BytesToUid(records[i].data.value);
        return Some(s);
      }
      assert records[i..][1..] == records[i + 1..];
      i := i + 1;
    }
  }

  /** The extraction chain of the `reading` handler. */
  method ReadUid(e: ReadingEvent) returns (uid: Option<string>)
    ensures uid == ExtractUid(e)
  {
    uid := None;
    if e.serialNumber.Some? && e.serialNumber.value != "" {
      uid := e.serialNumber;
    } else if e.message.Some? && e.message.value.records.Some? {
      uid := RecordsUid(e.message.value.records.value);
    } else if e.data.Some? {
      var s := BytesToUid(e.data.value);
      uid := Some(s);
    }
  }

  /**
   * A serialNumber is taken verbatim; a UID read from bytes has two
   * upper-case hexadecimal digits per byte and at most 16 characters.
   */
  lemma ExtractUidShape(e: ReadingEvent)
    ensures Truthy(e.serialNumber) ==> ExtractUid(e) == e.serialNumber
    ensures !Truthy(e.serialNumber) && ExtractUid(e).Some? ==>
      |ExtractUid(e).value| <= 2 * MaxUidBytes && |ExtractUid(e).value| % 2 == 0
      && forall i :: 0 <= i < |ExtractUid(e).value| ==> IsHexDigit(ExtractUid(e).value[i])
  {
  }

  /** A records array without data shadows `event.data`: the UID stays null. */
  lemma {:induction false} RecordsShadowData(e: ReadingEvent)
    requires !Truthy(e.serialNumber) && e.message.Some? && e.message.value.records.Some?
    requires forall k :: 0 <= k < |e.message.value.records.value| ==> e.message.value.records.value[k].data.None?
    ensures ExtractUid(e).None?
  {
    NoDataNoFirst(e.message.value.records.value);
  }

  lemma {:induction false} NoDataNoFirst(records: seq<NdefRecord>)
    requires forall k :: 0 <= k < |records| ==> records[k].data.None?
    ensures FirstData(records).None?
  {
    if records != [] {
      NoDataNoFirst(records[1..]);
    }
  }

  /** Records after the first one with data are ignored. */
  lemma FirstDataIgnoresLater(records: seq<NdefRecord>, k: nat, later: seq<NdefRecord>)
    requires k < |records| && records[k].data.Some?
    ensures FirstData(records[..k + 1] + later) == FirstData(records)
  {
    if k > 0 && records[0].data.None? {
      assert (records[..k + 1] + later)[1..] == records[1..][..k] + later;
      FirstDataIgnoresLater(records[1..], k - 1, later);
    }
  }

  /** An empty buffer gives "", which the handler refuses. */
  lemma EmptyDataRefused(e: ReadingEvent)
    requires !Truthy(e.serialNumber) && e.message.None? && e.data == Some([])
    ensures ExtractUid(e) == Some("") && !Acceptable(ExtractUid(e))
  {
  }

  /**
   * The catch block of `startScanning`: 'permission', then 'not supported',
   * then 'HTTPS' is looked for in the error message, else the default.
   */
  function StartErrorMessage(message: string): (r: string)
    ensures r in {PermissionMessage, NotSupportedMessage, HttpsMessage, DefaultStartMessage}
    ensures Contains(message, "permission") ==> r == PermissionMessage
  {
    if Contains(message, "permission") then PermissionMessage
    else if Contains(message, "not supported") then NotSupportedMessage
    else if Contains(message, "HTTPS") then HttpsMessage
    else DefaultStartMessage
  }

  /**
   * The error thrown when the device has no NFC matches none of the three
   * keywords, so it is reported with the default message.
   */
  lemma UnsupportedGetsDefault()
    ensures StartErrorMessage(NoNfcThrown) == DefaultStartMessage
  {
    var s := NoNfcThrown;
    assert forall i :: 0 <= i < |s| ==> s[i] != 'm' && s[i] != 'u' && s[i] != 'H';
    assert "permission"[3] == 'm' && 'm' !in s;
    MissingCharNotContained(s, "permission", 3);
    assert "not supported"[5] == 'u' && 'u' !in s;
    MissingCharNotContained(s, "not supported", 5);
    assert "HTTPS"[0] == 'H' && 'H' !in s;
    MissingCharNotContained(s, "HTTPS", 0);
  }

  /** A string missing one character of `sub` does not contain `sub`. */
  lemma MissingCharNotContained(s: string, sub: string, k: nat)
    requires k < |sub| && sub[k] !in s
    ensures !Contains(s, sub)
  {
    if Contains(s, sub) {
      ContainsChars(s, sub);
    }
  }

  class NfcScanner {
    var isScanning: bool
    var scannedUid: Option<string>
    var error: Option<string>
    var manualUid: string
    var showManualInput: bool
    var nfcSupported: bool

    /** The initial state and `checkNfcSupport`: NFC is supported iff `NDEFReader` is in `window`. */
    constructor (ndefReaderInWindow: bool)
      ensures nfcSupported == ndefReaderInWindow
      ensures !isScanning && scannedUid.None? && manualUid == ""
      ensures ndefReaderInWindow ==> error.None? && !showManualInput
      ensures !ndefReaderInWindow ==> error == Some(NoNfcManualMessage) && showManualInput
    {
      isScanning := false;
      scannedUid := None;
      manualUid := "";
      nfcSupported := ndefReaderInWindow;
      if ndefReaderInWindow {
        error := None;
        showManualInput := false;
      } else {
        error := Some(NoNfcManualMessage);
        showManualInput := true;
      }
    }

    /**
     * `startScanning`, with `scanFailure` the message `ndef.scan()` rejects
     * with (None when it starts). A failure, including the one thrown on an
     * unsupported device, sets a classified error, stops scanning and shows
     * manual input; a start leaves the dialog scanning with no error.
     */
    method StartScanning(scanFailure: Option<string>)
      modifies this
      ensures nfcSupported == old(nfcSupported) && manualUid == old(manualUid)
      ensures scannedUid.None?
      ensures !nfcSupported ==>
        error == Some(DefaultStartMessage) && !isScanning && showManualInput
      ensures nfcSupported && scanFailure.Some? ==>
        error == Some(StartErrorMessage(scanFailure.value)) && !isScanning && showManualInput
      ensures nfcSupported && scanFailure.None? ==>
        isScanning && error.None? && showManualInput == old(showManualInput)
    {
      isScanning := true;
      error := None;
      scannedUid := None;
      var thrown: Option<string> := None;
      if !nfcSupported {
        thrown := Some(NoNfcThrown);
      } else if scanFailure.Some? {
        thrown := scanFailure;
      }
      if thrown.Some? {
        UnsupportedGetsDefault();
        error := Some(StartErrorMessage(thrown.value));
        isScanning := false;
        showManualInput := true;
      }
    }

    /**
     * The `reading` handler: an acceptable UID is stored and scanning stops;
     * anything else sets the unreadable-UID error, stops scanning and shows
     * manual input.
     */
    method OnReading(e: ReadingEvent)
      modifies this
      ensures !isScanning && nfcSupported == old(nfcSupported) && manualUid == old(manualUid)
      ensures Acceptable(ExtractUid(e)) ==>
        scannedUid == ExtractUid(e) && error == old(error) && showManualInput == old(showManualInput)
      ensures !Acceptable(ExtractUid(e)) ==>
        scannedUid == old(scannedUid) && error == Some(UnreadableUidMessage) && showManualInput
    {
      var uid := ReadUid(e);
      if uid.Some? && uid.value != "" && uid.value != "unknown" {
        scannedUid := uid;
        isScanning := false;
      } else {
        error := Some(UnreadableUidMessage);
        isScanning := false;
        showManualInput := true;
      }
    }

    /** The `readingerror` handler. */
    method OnReadingError()
      modifies this
      ensures error == Some(ReadErrorMessage) && !isScanning && showManualInput
      ensures scannedUid == old(scannedUid) && manualUid == old(manualUid) && nfcSupported == old(nfcSupported)
    {
      error := Some(ReadErrorMessage);
      isScanning := false;
      showManualInput := true;
    }

    /** `stopScanning`. */
    method StopScanning()
      modifies this
      ensures !isScanning && error.None?
      ensures scannedUid == old(scannedUid) && manualUid == old(manualUid)
      ensures showManualInput == old(showManualInput) && nfcSupported == old(nfcSupported)
    {
      isScanning := false;
      error := None;
    }

    /** `handleRetry`: clears the result, the typed UID and the manual input, then starts again if supported. */
    method HandleRetry(scanFailure: Option<string>)
      modifies this
      ensures nfcSupported == old(nfcSupported) && manualUid == "" && scannedUid.None?
      ensures !nfcSupported ==> error.None? && !showManualInput && isScanning == old(isScanning)
      ensures nfcSupported && scanFailure.Some? ==>
        error == Some(StartErrorMessage(scanFailure.value)) && !isScanning && showManualInput
      ensures nfcSupported && scanFailure.None? ==> isScanning && error.None? && !showManualInput
    {
      error := None;
      scannedUid := None;
      manualUid := "";
      showManualInput := false;
      if nfcSupported {
        StartScanning(scanFailure);
      }
    }

    /**
     * `handleConfirm`: the UID handed to `onNfcDetected`, if any: the
     * scanned UID when truthy, else the typed one, trimmed; refused when
     * blank.
     */
    function HandleConfirm(): (r: Option<string>)
      reads this
      ensures r.Some? ==> r.value != "" && r.value == Trim(if Truthy(scannedUid) then scannedUid.value else manualUid)
    {
      var uidToUse := if scannedUid.Some? && scannedUid.value != "" then scannedUid.value else manualUid;
      if uidToUse != "" && Trim(uidToUse) != "" then Some(Trim(uidToUse)) else None
    }

    /** `handleManualSubmit`: the trimmed typed UID, refused when blank. */
    function HandleManualSubmit(): (r: Option<string>)
      reads this
      ensures r.Some? ==> r.value == Trim(manualUid) && r.value != ""
    {
      if Trim(manualUid) != "" then Some(Trim(manualUid)) else None
    }

    /**
     * Confirmation is refused exactly when the chosen UID is blank, a scanned
     * UID takes precedence over a typed one, and what is passed on is
     * trimmed on both ends.
     */
    lemma ConfirmRules()
      ensures var chosen := if Truthy(scannedUid) then scannedUid.value else manualUid;
        (HandleConfirm().None? <==> Blank(chosen))
        && (HandleConfirm().Some? ==>
              HandleConfirm().value == Trim(chosen)
              && !IsWhitespace(HandleConfirm().value[0])
              && !IsWhitespace(HandleConfirm().value[|HandleConfirm().value| - 1]))
        && (!Truthy(scannedUid) ==> HandleConfirm() == HandleManualSubmit())
    {
      var chosen := if Truthy(scannedUid) then scannedUid.value else manualUid;
      TrimEmptyIffBlank(chosen);
      TrimEmptyIffBlank(manualUid);
      TrimEdges(chosen);
      if chosen == "" {
        assert Trim(chosen) == "";
      }
      if manualUid == "" {
        assert Trim(manualUid) == "";
      }
    }
  }
}
