/**
 * The Capacitor-side helpers of `src/lib/nfc-native.ts`: the UID formatter
 * `formatUID`, the field choice of the Web NFC fallback `scanNfcWeb`, the guard
 * and rethrow rules of `scanNfcNative`, and `isNfcAvailable`.
 */
module NfcNative {
  import opened Base
  import opened Text
  import opened Bytes

  /** The characters the regular-expression `.` does not match. */
  predicate IsLineTerminator(c: char)
  {
    c == '\n' || c == '\r' || c == '\U{2028}' || c == '\U{2029}'
  }

  /**
   * `s.match(/.{1,2}/g)`, with [] standing for the null it returns when there
   * is no match: greedy pieces of one or two characters, skipping line
   * terminators, which `.` cannot match.
   */
  function RegexPairs(s: string): (r: seq<string>)
    ensures forall k :: 0 <= k < |r| ==> 1 <= |r[k]| <= 2
    ensures forall k, c :: 0 <= k < |r| && c in r[k] ==> c in s && !IsLineTerminator(c)
    decreases |s|
  {
    if s == [] then []
    else
      assert forall c :: c in s[1..] ==> c in s;
      if IsLineTerminator(s[0]) then RegexPairs(s[1..])
      else if |s| >= 2 && !IsLineTerminator(s[1]) then
        assert forall c :: c in s[2..] ==> c in s;
        [s[..2]] + RegexPairs(s[2..])
      else [s[..1]] + RegexPairs(s[1..])
  }

  /**
   * `formatUID`: a UID that already holds ':' is only upper-cased; otherwise it
   * is cut into pairs, joined with ':' and upper-cased, falling back to the
   * upper-cased input when the match is null.
   */
  function FormatUid(uid: string): (r: string)
    ensures r == "" <==> uid == ""
  {
    if ':' in uid then Upper(uid)
    else
      var m := RegexPairs(uid);
      var formatted := if m == [] then "" else Upper(Join(m, ":"));
      if formatted != "" then formatted else Upper(uid)
  }

  /** Left-to-right pairs of a string, the last one short when the length is odd. */
  function Pairs(s: string): seq<string>
    decreases |s|
  {
    if |s| <= 2 then (if s == "" then [] else [s]) else [s[..2]] + Pairs(s[2..])
  }

  predicate NoLineTerminator(s: string)
  {
    forall i :: 0 <= i < |s| ==> !IsLineTerminator(s[i])
  }

  /** On text without line terminators the regular expression cuts plain pairs. */
  lemma {:induction false} RegexPairsArePairs(s: string)
    requires NoLineTerminator(s)
    ensures RegexPairs(s) == Pairs(s)
    decreases |s|
  {
    if |s| > 2 {
      RegexPairsArePairs(s[2..]);
    } else if |s| == 1 {
      assert RegexPairs(s) == [s[..1]] + RegexPairs(s[1..]);
      assert s[..1] == s;
    } else if |s| == 2 {
      assert RegexPairs(s) == [s[..2]] + RegexPairs(s[2..]);
      assert s[..2] == s;
    }
  }

  /** The match is null exactly when every character is a line terminator. */
  lemma {:induction false} RegexPairsEmpty(s: string)
    ensures RegexPairs(s) == [] <==> forall i :: 0 <= i < |s| ==> IsLineTerminator(s[i])
    decreases |s|
  {
    if s != [] && IsLineTerminator(s[0]) {
      RegexPairsEmpty(s[1..]);
      if forall i :: 0 <= i < |s[1..]| ==> IsLineTerminator(s[1..][i]) {
        forall i | 0 <= i < |s| ensures IsLineTerminator(s[i]) {
          if i > 0 { assert s[i] == s[1..][i - 1]; }
        }
      }
    }
  }

  /** Joining the pairs of a colon-free text puts ceil(n/2)-1 colons between them and nothing else. */
  lemma {:induction false} JoinedPairs(s: string)
    requires ':' !in s && s != ""
    ensures Count(Join(Pairs(s), ":"), ':') == (|s| + 1) / 2 - 1
    ensures Remove(Join(Pairs(s), ":"), ':') == s
    decreases |s|
  {
    if |s| <= 2 {
      CountAbsent(s, ':');
    } else {
      var head, rest := s[..2], s[2..];
      JoinedPairs(rest);
      assert Pairs(s) == [head] + Pairs(rest);
      assert Join(Pairs(s), ":") == head + ":" + Join(Pairs(rest), ":");
      CountAbsent(head, ':');
      CountAppend(head, ":", ':');
      CountAppend(head + ":", Join(Pairs(rest), ":"), ':');
      RemoveAppend(head, ":", ':');
      RemoveAppend(head + ":", Join(Pairs(rest), ":"), ':');
      assert Remove(":", ':') == "";
      assert head + rest == s;
    }
  }

  /**
   * A colon-free UID without line terminators is cut into left-to-right pairs,
   * joined with ':' and upper-cased: ceil(n/2)-1 colons, and deleting them
   * gives back the upper-cased input.
   */
  lemma FormatUidPairs(uid: string)
    requires ':' !in uid && NoLineTerminator(uid) && uid != ""
    ensures FormatUid(uid) == Upper(Join(Pairs(uid), ":"))
    ensures Count(FormatUid(uid), ':') == (|uid| + 1) / 2 - 1
    ensures Remove(FormatUid(uid), ':') == Upper(uid)
  {
    RegexPairsArePairs(uid);
    JoinedPairs(uid);
    UpperCount(Join(Pairs(uid), ":"), ':');
  }

  /** `formatUID` is idempotent, whatever characters the input holds. */
  lemma FormatUidIdempotent(x: string)
    ensures FormatUid(FormatUid(x)) == FormatUid(x)
  {
    var r := FormatUid(x);
    UpperKeeps(x, ':');
    UpperIdempotent(x);
    if ':' !in x {
      var m := RegexPairs(x);
      if m == [] {
        RegexPairsEmpty(x);
        RegexPairsEmpty(Upper(x));
      } else if |m| >= 2 {
        var j := Join(m, ":");
        assert j == m[0] + ":" + Join(m[1..], ":");
        assert j[|m[0]|] == ':';
        UpperKeeps(j, ':');
        UpperIdempotent(j);
      } else {
        var p := m[0];
        assert Join(m, ":") == p;
        assert r == Upper(p);
        UpperKeeps(p, ':');
        assert NoLineTerminator(r) by {
          forall i | 0 <= i < |r| ensures !IsLineTerminator(r[i]) {
            assert p[i] in p;
          }
        }
        RegexPairsArePairs(r);
        assert Pairs(r) == [r];
        UpperIdempotent(p);
      }
    }
  }

  /** `formatUID` of the plugins' plain hexadecimal UID is exactly the colon form. */
  lemma {:induction false} FormatUidOfHex(bs: seq<Byte>)
    requires bs != []
    ensures FormatUid(Hex(bs)) == HexWithColons(bs)
  {
    var s := Hex(bs);
    assert forall i :: 0 <= i < |s| ==> IsHexDigit(s[i]);
    assert ':' !in s;
    assert NoLineTerminator(s);
    RegexPairsArePairs(s);
    PairsOfHex(bs);
    HexWithColonsChars(bs);
    UpperFixed(HexWithColons(bs));
  }

  lemma {:induction false} PairsOfHex(bs: seq<Byte>)
    requires bs != []
    ensures Join(Pairs(Hex(bs)), ":") == HexWithColons(bs)
  {
    var s := Hex(bs);
    assert s == HexByte(bs[0]) + Hex(bs[1..]);
    if |bs| > 1 {
      PairsOfHex(bs[1..]);
      assert s[..2] == HexByte(bs[0]) && s[2..] == Hex(bs[1..]);
      assert Pairs(s) == [s[..2]] + Pairs(s[2..]);
      assert Pairs(s[2..]) != [];
    }
  }

  /** Pieces of two characters, the last of one or two, are what `Pairs` cuts their concatenation into. */
  lemma {:induction false} PairsOfPieces(ps: seq<string>)
    requires ps != []
    requires forall k :: 0 <= k < |ps| - 1 ==> |ps[k]| == 2
    requires 1 <= |ps[|ps| - 1]| <= 2
    ensures Pairs(Join(ps, "")) == ps
  {
    if |ps| > 1 {
      PairsOfPieces(ps[1..]);
      var s := Join(ps, "");
      assert s == ps[0] + Join(ps[1..], "");
      assert s[..2] == ps[0] && s[2..] == Join(ps[1..], "");
      assert ps == [ps[0]] + ps[1..];
    }
  }

  /**
   * A UID given as its pairs, without colons or line terminators, is
   * formatted as those pairs joined with ':' and upper-cased.
   */
  lemma FormatUidOfPieces(ps: seq<string>)
    requires ps != []
    requires forall k :: 0 <= k < |ps| - 1 ==> |ps[k]| == 2
    requires 1 <= |ps[|ps| - 1]| <= 2
    requires ':' !in Join(ps, "") && NoLineTerminator(Join(ps, ""))
    ensures FormatUid(Join(ps, "")) == Upper(Join(ps, ":"))
  {
    PairsOfPieces(ps);
    FormatUidPairs(Join(ps, ""));
  }

  /** The example of the source comment: "C4DEC42D" becomes "C4:DE:C4:2D". */
  lemma FormatUidExample()
    ensures FormatUid("C4DEC42D") == "C4:DE:C4:2D"
  {
    var ps := ["C4", "DE", "C4", "2D"];
    assert Join(ps[3..], "") == "2D" && Join(ps[3..], ":") == "2D";
    assert Join(ps[2..], "") == "C42D" && Join(ps[2..], ":") == "C4:2D";
    assert Join(ps[1..], "") == "DEC42D" && Join(ps[1..], ":") == "DE:C4:2D";
    assert Join(ps, "") == "C4DEC42D" && Join(ps, ":") == "C4:DE:C4:2D";
    FormatUidOfPieces(ps);
    UpperFixed("C4:DE:C4:2D");
  }

  /**
   * No hexadecimal validation: the placeholder plugin's "FAKE-UID-12345678"
   * comes out as "FA:KE:-U:ID:-1:23:45:67:8".
   */
  lemma FormatUidNoValidation()
    ensures FormatUid("FAKE-UID-12345678") == "FA:KE:-U:ID:-1:23:45:67:8"
  {
    var ps := FakeUidPieces();
    FakeUidPlain();
    FormatUidOfPieces(ps);
    FakeUidUpper();
  }

  lemma FakeUidPlain()
    ensures ':' !in "FAKE-UID-12345678" && NoLineTerminator("FAKE-UID-12345678")
  {
    var s := "FAKE-UID-12345678";
    assert forall i :: 0 <= i < |s| ==> s[i] != ':' && !IsLineTerminator(s[i]);
  }

  lemma FakeUidUpper()
    ensures Upper("FA:KE:-U:ID:-1:23:45:67:8") == "FA:KE:-U:ID:-1:23:45:67:8"
  {
    var s := "FA:KE:-U:ID:-1:23:45:67:8";
    assert forall i :: 0 <= i < |s| ==> !IsLowerLetter(s[i]);
    UpperFixed(s);
  }

  lemma FakeUidPieces() returns (ps: seq<string>)
    ensures ps != [] && 1 <= |ps[|ps| - 1]| <= 2
    ensures forall k :: 0 <= k < |ps| - 1 ==> |ps[k]| == 2
    ensures Join(ps, "") == "FAKE-UID-12345678"
    ensures Join(ps, ":") == "FA:KE:-U:ID:-1:23:45:67:8"
  {
    var a := FakeUidHead();
    var b := FakeUidTail();
    JoinConcat(a, b, "");
    JoinConcat(a, b, ":");
    ps := a + b;
    assert "FAKE-UID" + "" + "-12345678" == "FAKE-UID-12345678";
    assert "FA:KE:-U:ID" + ":" + "-1:23:45:67:8" == "FA:KE:-U:ID:-1:23:45:67:8";
  }

  lemma FakeUidHead() returns (p: seq<string>)
    ensures p == ["FA", "KE", "-U", "ID"]
    ensures Join(p, "") == "FAKE-UID" && Join(p, ":") == "FA:KE:-U:ID"
  {
    p := ["FA", "KE", "-U", "ID"];
    assert Join(p[3..], "") == "ID" && Join(p[3..], ":") == "ID";
    assert Join(p[2..], "") == "-UID" && Join(p[2..], ":") == "-U:ID";
    assert Join(p[1..], "") == "KE-UID" && Join(p[1..], ":") == "KE:-U:ID";
  }

  lemma FakeUidTail() returns (p: seq<string>)
    ensures p == ["-1", "23", "45", "67", "8"]
    ensures Join(p, "") == "-12345678" && Join(p, ":") == "-1:23:45:67:8"
  {
    p := ["-1", "23", "45", "67", "8"];
    assert Join(p[4..], "") == "8" && Join(p[4..], ":") == "8";
    assert Join(p[3..], "") == "678" && Join(p[3..], ":") == "67:8";
    assert Join(p[2..], "") == "45678" && Join(p[2..], ":") == "45:67:8";
    assert Join(p[1..], "") == "2345678" && Join(p[1..], ":") == "23:45:67:8";
  }

  /** The fields of a Web NFC reading event that `scanNfcWeb` consults. */
  datatype WebReadingEvent = WebReadingEvent(serialNumber: Option<string>, id: Option<string>, uid: Option<string>)

  /** What happens after `scanNfcWeb` is called. */
  datatype WebScanOutcome =
    | ScanRejected(error: string)        // ndef.scan() rejected
    | ReadingErrorEvent(error: string)   // a 'readingerror' event
    | ReadingEvent(event: WebReadingEvent)

  const WebNfcMissing: string := "Web NFC API no está disponible en este navegador."
  const WebUidMissing: string := "No se pudo extraer UID de la tarjeta NFC."

  /** The 'reading' handler: the first truthy of serialNumber, id and uid, formatted. */
  function WebReadingUid(event: WebReadingEvent): Result<string, string>
  {
    var uid :=
      if Truthy(event.serialNumber) then Some(FormatUid(event.serialNumber.value))
      else if Truthy(event.id) then Some(FormatUid(event.id.value))
      else if Truthy(event.uid) then Some(FormatUid(event.uid.value))
      else None;
    if Truthy(uid) then Ok(uid.value) else Err(WebUidMissing)
  }

  /** How the promise of `scanNfcWeb` settles. */
  function ScanNfcWeb(ndefReaderInWindow: bool, outcome: WebScanOutcome): Result<string, string>
  {
    if !ndefReaderInWindow then Err(WebNfcMissing)
    else match outcome
      case ScanRejected(e) => Err(e)
      case ReadingErrorEvent(e) => Err(e)
      case ReadingEvent(ev) => WebReadingUid(ev)
  }

  /**
   * A Web NFC scan resolves exactly when the API exists, a reading arrives and
   * one of serialNumber, id, uid is non-empty; the value is the first such
   * field, formatted, and the other two are not looked at.
   */
  lemma WebScanResolves(avail: bool, outcome: WebScanOutcome)
    ensures ScanNfcWeb(avail, outcome).Ok? <==>
      avail && outcome.ReadingEvent? &&
      (Truthy(outcome.event.serialNumber) || Truthy(outcome.event.id) || Truthy(outcome.event.uid))
    ensures ScanNfcWeb(avail, outcome).Ok? ==>
      var ev := outcome.event;
      ScanNfcWeb(avail, outcome).value ==
        FormatUid(if Truthy(ev.serialNumber) then ev.serialNumber.value
                  else if Truthy(ev.id) then ev.id.value else ev.uid.value)
    ensures !avail ==> ScanNfcWeb(avail, outcome) == Err(WebNfcMissing)
  {
  }

  /** The error a rejected native read carries: `error?.message || String(error)`. */
  datatype JsError = JsError(message: Option<string>, asString: string)

  function ErrorText(e: JsError): string
  {
    if Truthy(e.message) then e.message.value else e.asString
  }

  /** What `NfcUidReader.startReading()` does, seen from `scanNfcNative`. */
  datatype PluginRead =
    | PluginMissing                 // neither the bridge nor the package provides startReading
    | ReadRejected(error: JsError)
    | ReadResolved(uid: string)
    | ReadResolvedWithoutUid(typeError: string) // `formatUID(undefined)` throws the engine's TypeError

  const NotNativeMessage: string := "NFC nativo solo está disponible en dispositivos Android/iOS reales."
  const PluginMissingMessage: string := "El plugin capacitor-nfc-uid-reader no está disponible. ¿Sincronizaste y compilaste el proyecto?"
  const RethrowPrefix: string := "Error leyendo NFC UID: "

  /** `scanNfcNative`: refuse off a native platform, rethrow every failure inside with a prefix. */
  function ScanNfcNative(isNativePlatform: bool, read: PluginRead): Result<string, string>
  {
    if !isNativePlatform then Err(NotNativeMessage)
    else match read
      case PluginMissing => Err(RethrowPrefix + PluginMissingMessage)
      case ReadRejected(e) => Err(RethrowPrefix + ErrorText(e))
      case ReadResolved(uid) => Ok(FormatUid(uid))
      case ReadResolvedWithoutUid(typeError) => Err(RethrowPrefix + typeError)
  }

  /** `isNfcAvailable`: true on a native platform only. */
  function IsNfcAvailable(isNativePlatform: bool): bool
  {
    isNativePlatform
  }

  /**
   * A native scan succeeds only where `isNfcAvailable` says NFC is available;
   * every failure past the platform check carries the rethrow prefix and the
   * platform refusal does not; a resolved UID is already in `formatUID` form;
   * a read that resolves without a UID is a failure.
   */
  lemma NativeScanRules(isNative: bool, read: PluginRead)
    ensures ScanNfcNative(isNative, read).Ok? ==> IsNfcAvailable(isNative)
    ensures !isNative ==> ScanNfcNative(isNative, read) == Err(NotNativeMessage)
    ensures isNative && ScanNfcNative(isNative, read).Err? ==>
      IsPrefix(RethrowPrefix, ScanNfcNative(isNative, read).error)
    ensures ScanNfcNative(isNative, read).Ok? ==>
      FormatUid(ScanNfcNative(isNative, read).value) == ScanNfcNative(isNative, read).value
    ensures read.ReadResolvedWithoutUid? ==> ScanNfcNative(isNative, read).Err?
  {
    if isNative && read.ReadResolved? {
      FormatUidIdempotent(read.uid);
    }
  }
}
