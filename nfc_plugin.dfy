/**
 * The Android plugin `NfcPlugin.java`: the `isScanning` flag that
 * `startScan`/`stopScan` set and `handleOnNewIntent` consults, the payload
 * `processNfcTag` sends to JavaScript, `getTagType`, and the two hexadecimal
 * encoders with their `StringBuilder` loops. `notifyListeners` is modelled as
 * a log of emitted events and a plugin call's settlement as a return value.
 */
module AndroidNfc {
  import opened Base
  import opened Text
  import opened Bytes

  /** `NfcAdapter.getDefaultAdapter`: none on a device without NFC. */
  datatype Adapter = NoAdapter | Adapter(enabled: bool)

  /** A tag as `Tag.getId()` and `Tag.getTechList()` present it. */
  datatype Tag = Tag(id: seq<JByte>, techList: seq<string>)

  /** An intent: its action (possibly null) and its `EXTRA_TAG` (possibly null). */
  datatype Intent = Intent(action: Option<string>, tag: Option<Tag>)

  /** The `nfcTag` object of the payload. */
  datatype TagInfo = TagInfo(id: string, techTypes: seq<string>, tagType: string)

  /** The `nfcTagScanned` payload. */
  datatype TagData = TagData(
    uid: string,
    idBytes: seq<JByte>,
    techList: seq<string>,
    tagId: string,
    serialNumber: string,
    nfcTag: TagInfo)

  datatype PluginEvent =
    | ScanStarted(message: string)
    | ScanStopped(message: string)
    | NfcTagScanned(data: TagData)

  /** How a plugin call is settled. */
  datatype CallResult = Resolved(success: bool, message: string) | Rejected(message: string)

  const ActionTagDiscovered: string := "android.nfc.action.TAG_DISCOVERED"
  const ActionTechDiscovered: string := "android.nfc.action.TECH_DISCOVERED"
  const ActionNdefDiscovered: string := "android.nfc.action.NDEF_DISCOVERED"

  const NoNfcMessage: string := "NFC no está disponible en este dispositivo"
  const NfcDisabledMessage: string := "NFC no está habilitado"
  const ScanStartedMessage: string := "Escaneo NFC iniciado. Acerca una tarjeta NFC al dispositivo."
  const ScanStoppedMessage: string := "Escaneo NFC detenido"

  /** The three discovery actions the plugin reacts to; a null action is none of them. */
  predicate IsDiscoveryAction(action: Option<string>)
  {
    action.Some? && action.value in {ActionTagDiscovered, ActionTechDiscovered, ActionNdefDiscovered}
  }

  /** The type names `getTagType` can report. */
  const TagTypes: set<string> :=
    {"MifareClassic", "MifareUltralight", "NfcA", "NfcB", "NfcF", "NfcV", "IsoDep", "Ndef", "NdefFormatable", "Unknown"}

  /**
   * `getTagType`: only the first technology name is looked at, and the first
   * of the fixed names it contains is reported.
   */
  function GetTagType(techList: seq<string>): (r: string)
    ensures r in TagTypes
    ensures techList == [] ==> r == "Unknown"
  {
    if |techList| > 0 then
      var tech := techList[0];
      if Contains(tech, "MifareClassic") then "MifareClassic"
      else if Contains(tech, "MifareUltralight") then "MifareUltralight"
      else if Contains(tech, "NfcA") then "NfcA"
      else if Contains(tech, "NfcB") then "NfcB"
      else if Contains(tech, "NfcF") then "NfcF"
      else if Contains(tech, "NfcV") then "NfcV"
      else if Contains(tech, "IsoDep") then "IsoDep"
      else if Contains(tech, "Ndef") then "Ndef"
      else if Contains(tech, "NdefFormatable") then "NdefFormatable"
      else "Unknown"
    else "Unknown"
  }

  /**
   * The "NdefFormatable" branch is dead: a name containing it also contains
   * "Ndef", which is tested first.
   */
  lemma GetTagTypeNeverNdefFormatable(techList: seq<string>)
    ensures GetTagType(techList) != "NdefFormatable"
  {
    if |techList| > 0 && Contains(techList[0], "NdefFormatable") {
      ContainsPrefixOfNeedle(techList[0], "NdefFormatable", 4);
      assert "NdefFormatable"[..4] == "Ndef";
    }
  }

  /** Later names of the list never matter. */
  lemma GetTagTypeFirstOnly(techList: seq<string>, rest: seq<string>)
    requires techList != []
    ensures GetTagType([techList[0]] + rest) == GetTagType(techList)
  {
  }

  /** The payload built for a tag: one hexadecimal UID under four names. */
  function TagPayload(tag: Tag): TagData
  {
    var uid := Hex(UnsignedAll(tag.id));
    TagData(uid, tag.id, tag.techList, uid, uid, TagInfo(uid, tag.techList, GetTagType(tag.techList)))
  }

  /**
   * uid, tagId, serialNumber and nfcTag.id are the same colon-free text of
   * two digits per ID byte, from which the ID bytes are recovered.
   */
  lemma TagPayloadAliases(tag: Tag)
    ensures var d := TagPayload(tag);
      d.tagId == d.uid && d.serialNumber == d.uid && d.nfcTag.id == d.uid
      && |d.uid| == 2 * |tag.id| && ':' !in d.uid
      && ParseHex(d.uid) == Some(UnsignedAll(tag.id))
      && d.nfcTag.tagType != "NdefFormatable"
  {
    var uid := Hex(UnsignedAll(tag.id));
    assert forall i :: 0 <= i < |uid| ==> uid[i] != ':';
    JavaHexRoundTrip(tag.id);
    GetTagTypeNeverNdefFormatable(tag.techList);
  }

  class NfcPlugin {
    var adapter: Adapter
    var isScanning: bool
    /** The events passed to `notifyListeners`, oldest first. */
    var events: seq<PluginEvent>

    /** `load()`: the adapter is whatever the device offers; scanning is off. */
    constructor (adapter: Adapter)
      ensures this.adapter == adapter && !isScanning && events == []
    {
      this.adapter := adapter;
      isScanning := false;
      events := [];
    }

    /** `isEnabled`: an adapter exists and is switched on. */
    function IsEnabled(): bool
      reads this
    {
      adapter.Adapter? && adapter.enabled
    }

    /**
     * `startScan`: rejected, with nothing changed, without an enabled adapter;
     * otherwise scanning is switched on, the call succeeds and `scanStarted`
     * is emitted.
     */
    method StartScan() returns (result: CallResult)
      modifies this
      ensures adapter == old(adapter)
      ensures adapter.NoAdapter? ==> result == Rejected(NoNfcMessage)
      ensures adapter.Adapter? && !adapter.enabled ==> result == Rejected(NfcDisabledMessage)
      ensures result.Rejected? <==> !IsEnabled()
      ensures result.Rejected? ==> isScanning == old(isScanning) && events == old(events)
      ensures result.Resolved? ==>
        result == Resolved(true, ScanStartedMessage) && isScanning
        && events == old(events) + [ScanStarted(ScanStartedMessage)]
    {
      if adapter.NoAdapter? {
        return Rejected(NoNfcMessage);
      }
      if !adapter.enabled {
        return Rejected(NfcDisabledMessage);
      }
      isScanning := true;
      result := Resolved(true, ScanStartedMessage);
      events := events + [ScanStarted(ScanStartedMessage)];
    }

    /** `stopScan`: always succeeds, switches scanning off and emits `scanStopped`. */
    method StopScan() returns (result: CallResult)
      modifies this
      ensures result == Resolved(true, ScanStoppedMessage)
      ensures !isScanning && adapter == old(adapter)
      ensures events == old(events) + [ScanStopped(ScanStoppedMessage)]
    {
      isScanning := false;
      result := Resolved(true, ScanStoppedMessage);
      events := events + [ScanStopped(ScanStoppedMessage)];
    }

    /**
     * `handleOnNewIntent`: ignored while not scanning; while scanning, a
     * discovery intent carrying a tag emits that tag's payload. Scanning is
     * never switched off by a tag.
     */
    method HandleOnNewIntent(intent: Intent)
      modifies this
      ensures isScanning == old(isScanning) && adapter == old(adapter)
      ensures old(isScanning) && IsDiscoveryAction(intent.action) && intent.tag.Some? ==>
        events == old(events) + [NfcTagScanned(TagPayload(intent.tag.value))]
      ensures !(old(isScanning) && IsDiscoveryAction(intent.action) && intent.tag.Some?) ==>
        events == old(events)
    {
      if !isScanning {
        return;
      }
      var action := intent.action;
      if action.Some? && (action.value == ActionTagDiscovered || action.value == ActionTechDiscovered
        || action.value == ActionNdefDiscovered)
      {
        if intent.tag.Some? {
          var data := ProcessNfcTag(intent.tag.value);
          events := events + [NfcTagScanned(data)];
        }
      }
    }

    /** `processNfcTag`: the payload of a tag, its UID built by `bytesToHex`. */
    static method ProcessNfcTag(tag: Tag) returns (data: TagData)
      ensures data == TagPayload(tag)
    {
      var uid := BytesToHex(tag.id);
      var info := TagInfo(uid, tag.techList, GetTagType(tag.techList));
      data := TagData(uid, tag.id, tag.techList, uid, uid, info);
    }

    /** `bytesToHex`: `%02X` of every byte, appended in order. */
    static method BytesToHex(bytes: seq<JByte>) returns (s: string)
      ensures s == Hex(UnsignedAll(bytes))
      ensures |s| == 2 * |bytes|
    {
      s := "";
      for i := 0 to |bytes|
        invariant s == Hex(UnsignedAll(bytes[..i]))
      {
        HexAppend(UnsignedAll(bytes[..i]), [Unsigned(bytes[i])]);
        assert UnsignedAll(bytes[..i + 1]) == UnsignedAll(bytes[..i]) + [Unsigned(bytes[i])];
        s := s + HexByte(Unsigned(bytes[i]));
      }
      assert bytes[..|bytes|] == bytes;
    }

    /** `bytesToHexWithColons`: the same digits with ':' before every byte but the first. */
    static method BytesToHexWithColons(bytes: seq<JByte>) returns (s: string)
      ensures s == HexWithColons(UnsignedAll(bytes))
    {
      s := "";
      for i := 0 to |bytes|
        invariant s == HexWithColons(UnsignedAll(bytes[..i]))
      {
        HexWithColonsSnoc(UnsignedAll(bytes[..i]), Unsigned(bytes[i]));
        assert UnsignedAll(bytes[..i + 1]) == UnsignedAll(bytes[..i]) + [Unsigned(bytes[i])];
        if i > 0 {
          s := s + ":";
        }
        s := s + HexByte(Unsigned(bytes[i]));
      }
      assert bytes[..|bytes|] == bytes;
    }
  }

  /**
   * The two encoders agree: the colon form has 3n-1 characters for n > 0
   * bytes and none for no bytes, and deleting its colons gives `bytesToHex`.
   */
  lemma EncodersAgree(bytes: seq<JByte>)
    ensures |HexWithColons(UnsignedAll(bytes))| == if bytes == [] then 0 else 3 * |bytes| - 1
    ensures Remove(HexWithColons(UnsignedAll(bytes)), ':') == Hex(UnsignedAll(bytes))
  {
    HexWithColonsShape(UnsignedAll(bytes));
  }
}
