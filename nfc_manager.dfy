/**
 * `src/lib/nfc.ts`: the simulated `NFCManager` of the web build. Its two
 * flags are set by `checkSupport` in the constructor and guard `startScan`,
 * which answers with a random eight-digit hexadecimal UID. The digits drawn
 * by `Math.floor(Math.random() * chars.length)` are an input here.
 */
module WebNfc {
  import opened Base
  import opened Bytes

  /** `NfcScanResult`. */
  datatype ScanResult = ScanResult(success: bool, uid: Option<string>, error: Option<string>)

  /** An index `Math.floor(Math.random() * 16)` can produce. */
  type DigitIndex = d: int | 0 <= d < 16

  const Chars: string := "0123456789ABCDEF"
  const UidLength: nat := 8
  const UnsupportedMessage: string := "NFC no está soportado o habilitado"

  /** `chars.charAt(d)` is the upper-case hexadecimal digit of `d`. */
  lemma CharsAreHexDigits()
    ensures |Chars| == 16
    ensures forall d :: 0 <= d < 16 ==> Chars[d] == HexDigit(d)
  {
  }

  /** The bytes whose `%02X` text a simulated UID is: digits taken two at a time. */
  function PickedBytes(picks: seq<DigitIndex>): (bs: seq<Byte>)
    requires |picks| % 2 == 0
    ensures |bs| == |picks| / 2
    decreases |picks|
  {
    if picks == [] then [] else [(picks[0] as int) * 16 + picks[1] as int] + PickedBytes(picks[2..])
  }

  /**
   * The digits chosen by `picks` spell the hexadecimal text of the bytes they
   * pair into, so a simulated UID reads back as those bytes.
   */
  lemma {:induction false} PickedDigitsAreHex(picks: seq<DigitIndex>, uid: string)
    requires |picks| % 2 == 0 && |uid| == |picks|
    requires forall i :: 0 <= i < |uid| ==> uid[i] == Chars[picks[i]]
    ensures uid == Hex(PickedBytes(picks))
    ensures ParseHex(uid) == Some(PickedBytes(picks))
    decreases |picks|
  {
    CharsAreHexDigits();
    if picks != [] {
      var b: Byte := (picks[0] as int) * 16 + picks[1] as int;
      assert b / 16 == picks[0] && b % 16 == picks[1];
      PickedDigitsAreHex(picks[2..], uid[2..]);
      assert uid == HexByte(b) + uid[2..];
    }
    HexRoundTrip(PickedBytes(picks));
  }

  class NfcManager {
    var supported: bool
    var enabled: bool

    /** The constructor runs `checkSupport`, which switches both flags on. */
    constructor ()
      ensures supported && enabled
    {
      supported := true;
      enabled := true;
    }

    /** `isSupported()`. */
    function IsSupported(): bool
      reads this
    {
      supported
    }

    /** `isEnabled()`. */
    function IsEnabled(): bool
      reads this
    {
      enabled
    }

    /**
     * `startScan`: refused with an error and no uid unless both flags are
     * on; otherwise a success carrying a simulated UID.
     */
    method StartScan(picks: seq<DigitIndex>) returns (r: ScanResult)
      requires |picks| == UidLength
      ensures !(supported && enabled) ==> r == ScanResult(false, None, Some(UnsupportedMessage))
      ensures supported && enabled ==>
        r.success && r.error.None? && r.uid.Some?
        && |r.uid.value| == UidLength && r.uid.value == Hex(PickedBytes(picks))
    {
      if !supported || !enabled {
        return ScanResult(false, None, Some(UnsupportedMessage));
      }
      var uid := GenerateSimulatedUid(picks);
      r := ScanResult(true, Some(uid), None);
    }

    /** `stopScan` only logs. */
    method StopScan()
      ensures unchanged(this)
    {
    }

    /**
     * `generateSimulatedUID`: eight characters of "0123456789ABCDEF",
     * appended one per drawn index; no colons.
     */
    static method GenerateSimulatedUid(picks: seq<DigitIndex>) returns (uid: string)
      requires |picks| == UidLength
      ensures |uid| == UidLength
      ensures forall i :: 0 <= i < |uid| ==> uid[i] == Chars[picks[i]] && IsHexDigit(uid[i])
      ensures ':' !in uid
      ensures uid == Hex(PickedBytes(picks))
    {
      CharsAreHexDigits();
      uid := "";
      for i := 0 to UidLength
        invariant |uid| == i
        invariant forall k :: 0 <= k < i ==> uid[k] == Chars[picks[k]]
      {
        uid := uid + [Chars[picks[i]]];
      }
      PickedDigitsAreHex(picks, uid);
    }

    /** `scanWithUID`: a success carrying the given uid unchanged. */
    static method ScanWithUid(uid: string) returns (r: ScanResult)
      ensures r.success && r.uid == Some(uid) && r.error.None?
    {
      r := ScanResult(true, Some(uid), None);
    }
  }
}
