/**
 * The reader-mode plugin `NfcUidReader.java`: a single `savedCall` slot that
 * `startReading` fills and `onTagDiscovered` resolves with the tag's
 * hexadecimal UID and clears. Plugin calls are identified by numbers; the
 * settlements they receive are logged, and `getActivity()` and
 * `NfcAdapter.getDefaultAdapter` are inputs.
 */
module UidReader {
  import opened Base
  import opened Bytes

  /** `call.resolve({uid})`. */
  datatype Resolution = Resolution(call: nat, uid: string)

  /** `call.reject(message)`. */
  datatype Rejection = Rejection(call: nat, message: string)

  const NoNfcMessage: string := "NFC no disponible en este dispositivo."

  class NfcUidReader {
    /** `nfcAdapter != null`, as last looked up by `startReading`. */
    var hasAdapter: bool
    /** The pending call. */
    var savedCall: Option<nat>
    /** Whether reader mode is enabled on the activity. */
    var readerMode: bool
    var resolutions: seq<Resolution>
    var rejections: seq<Rejection>
    /** Every call `startReading` has been given. */
    ghost var started: set<nat>
    /** Calls that were pending when a later call took their place. */
    ghost var abandoned: set<nat>

    ghost predicate Resolved(call: nat)
      reads this
    {
      exists i :: 0 <= i < |resolutions| && resolutions[i].call == call
    }

    /**
     * No call is resolved twice, the pending call is not resolved yet, and an
     * abandoned call is neither pending nor resolved.
     */
    ghost predicate Valid()
      reads this
    {
      (forall i, j :: 0 <= i < j < |resolutions| ==> resolutions[i].call != resolutions[j].call)
      && (forall i :: 0 <= i < |resolutions| ==> resolutions[i].call in started)
      && (savedCall.Some? ==> savedCall.value in started && !Resolved(savedCall.value))
      && abandoned <= started
      && (forall c :: c in abandoned ==> !Resolved(c) && savedCall != Some(c))
    }

    constructor ()
      ensures Valid()
      ensures !hasAdapter && savedCall.None? && !readerMode
      ensures resolutions == [] && rejections == [] && started == {} && abandoned == {}
    {
      hasAdapter := false;
      savedCall := None;
      readerMode := false;
      resolutions := [];
      rejections := [];
      started := {};
      abandoned := {};
    }

    /**
     * `startReading`: without an adapter the call is rejected and not stored;
     * otherwise it becomes the pending call, overwriting (abandoning) any
     * earlier one, and reader mode is enabled.
     */
    method StartReading(call: nat, deviceHasNfc: bool)
      requires Valid() && call !in started
      modifies this
      ensures Valid()
      ensures hasAdapter == deviceHasNfc && resolutions == old(resolutions)
      ensures started == old(started) + {call}
      ensures !deviceHasNfc ==>
        rejections == old(rejections) + [Rejection(call, NoNfcMessage)]
        && savedCall == old(savedCall) && readerMode == old(readerMode) && abandoned == old(abandoned)
      ensures deviceHasNfc ==>
        rejections == old(rejections) && savedCall == Some(call) && readerMode
        && abandoned == old(abandoned) + (if old(savedCall).Some? then {old(savedCall).value} else {})
    {
      started := started + {call};
      hasAdapter := deviceHasNfc;
      if !deviceHasNfc {
        rejections := rejections + [Rejection(call, NoNfcMessage)];
        return;
      }
      if savedCall.Some? {
        abandoned := abandoned + {savedCall.value};
      }
      savedCall := Some(call);
      readerMode := true;
    }

    /**
     * `onTagDiscovered`: nothing happens without a pending call; otherwise the
     * pending call is resolved once with two upper-case digits per ID byte,
     * the slot is cleared, and reader mode is disabled when an adapter and an
     * activity exist.
     */
    method OnTagDiscovered(id: seq<JByte>, hasActivity: bool)
      requires Valid()
      modifies this
      ensures Valid()
      ensures hasAdapter == old(hasAdapter) && rejections == old(rejections)
      ensures started == old(started) && abandoned == old(abandoned)
      ensures old(savedCall).None? ==>
        savedCall.None? && resolutions == old(resolutions) && readerMode == old(readerMode)
      ensures old(savedCall).Some? ==>
        savedCall.None?
        && resolutions == old(resolutions) + [Resolution(old(savedCall).value, Hex(UnsignedAll(id)))]
        && readerMode == (old(readerMode) && !(hasAdapter && hasActivity))
    {
      if savedCall.None? {
        return;
      }
      var hexUid := "";
      for i := 0 to |id|
        invariant hexUid == Hex(UnsignedAll(id[..i]))
        invariant unchanged(this)
      {
        HexAppend(UnsignedAll(id[..i]), [Unsigned(id[i])]);
        assert UnsignedAll(id[..i + 1]) == UnsignedAll(id[..i]) + [Unsigned(id[i])];
        hexUid := hexUid + HexByte(Unsigned(id[i]));
      }
      assert id[..|id|] == id;
      var call := savedCall.value;
      resolutions := resolutions + [Resolution(call, hexUid)];
      savedCall := None;
      if hasAdapter && hasActivity {
        readerMode := false;
      }
    }

    /** `handleOnDestroy`: reader mode is disabled when an adapter and an activity exist; the slot is kept. */
    method HandleOnDestroy(hasActivity: bool)
      requires Valid()
      modifies this
      ensures Valid()
      ensures readerMode == (old(readerMode) && !(hasAdapter && hasActivity))
      ensures hasAdapter == old(hasAdapter) && savedCall == old(savedCall)
      ensures resolutions == old(resolutions) && rejections == old(rejections)
      ensures started == old(started) && abandoned == old(abandoned)
    {
      if hasAdapter && hasActivity {
        readerMode := false;
      }
    }
  }
}
