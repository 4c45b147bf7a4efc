/**
 * `src/lib/api-routes.ts`: the fixed REST paths of the remote API and the
 * three builders that put an id or a UID into a path.
 */
module ApiRoutes {
  import opened Decimal

  const Login: string := "/login"
  const Register: string := "/register"
  const Me: string := "/me"
  const Logout: string := "/logout"
  const DevicesRegister: string := "/devices/register"
  const DevicesList: string := "/devices"
  const PersonasList: string := "/personas"
  const AsistenciasStore: string := "/asistencias"

  /** The constant routes. */
  const Constants: seq<string> :=
    [Login, Register, Me, Logout, DevicesRegister, DevicesList, PersonasList, AsistenciasStore]

  /** Every constant route is an absolute path. */
  lemma ConstantsAreAbsolute()
    ensures forall i :: 0 <= i < |Constants| ==> |Constants[i]| > 0 && Constants[i][0] == '/'
  {
  }

  /** `DEVICES.DEACTIVATE(id)`. */
  function Deactivate(id: int): (r: string)
    ensures |r| > |"/devices/"| + |"/deactivate"| && r[0] == '/'
  {
    "/devices/" + IntToString(id) + "/deactivate"
  }

  /** `PERSONAS.ASOCIAR_NFC(id)`. */
  function AsociarNfc(id: int): (r: string)
    ensures |r| > |"/personas/"| + |"/asociar-nfc"| && r[0] == '/'
  {
    "/personas/" + IntToString(id) + "/asociar-nfc"
  }

  /** `NFC.GET_DATA(uid)`: the UID is put in the path as it is, without escaping. */
  function GetData(uid: string): (r: string)
    ensures |r| == |"/nfc/"| + |uid| && r[0] == '/'
  {
    "/nfc/" + uid
  }

  /** The text between a fixed head and a fixed tail of a path. */
  function Middle(path: string, head: string, tail: string): string
    requires |path| >= |head| + |tail|
  {
    path[|head|..|path| - |tail|]
  }

  /** The id is read back from a deactivation path, so distinct ids give distinct paths. */
  lemma DeactivateInjective(a: int, b: int)
    ensures Middle(Deactivate(a), "/devices/", "/deactivate") == IntToString(a)
    ensures Deactivate(a) == Deactivate(b) ==> a == b
  {
    var s := IntToString(a);
    assert Deactivate(a)[9..|Deactivate(a)| - 11] == s;
    if Deactivate(a) == Deactivate(b) {
      assert Deactivate(b)[9..|Deactivate(b)| - 11] == IntToString(b);
      IntToStringInjective(a, b);
    }
  }

  /** The id is read back from an association path, so distinct ids give distinct paths. */
  lemma AsociarNfcInjective(a: int, b: int)
    ensures Middle(AsociarNfc(a), "/personas/", "/asociar-nfc") == IntToString(a)
    ensures AsociarNfc(a) == AsociarNfc(b) ==> a == b
  {
    var s := IntToString(a);
    assert AsociarNfc(a)[10..|AsociarNfc(a)| - 12] == s;
    if AsociarNfc(a) == AsociarNfc(b) {
      assert AsociarNfc(b)[10..|AsociarNfc(b)| - 12] == IntToString(b);
      IntToStringInjective(a, b);
    }
  }

  /** The UID is read back from a data path, so distinct UIDs give distinct paths. */
  lemma GetDataInjective(a: string, b: string)
    ensures GetData(a)[5..] == a
    ensures GetData(a) == GetData(b) ==> a == b
  {
    assert GetData(a)[5..] == a;
    assert GetData(b)[5..] == b;
  }

  /** A colon-formatted UID puts its colons into the path unescaped. */
  lemma GetDataKeepsColons(uid: string, k: nat)
    requires k < |uid| && uid[k] == ':'
    ensures GetData(uid)[5 + k] == ':'
  {
  }
}
