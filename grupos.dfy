/**
 * `src/lib/grupos.ts`: `fetchGrupos` normalises the reply of `GET /grupos`
 * into a list of groups. Unlike the attendance page it does not guard a
 * missing body, and it does not look for a `grupos` key.
 */
module GruposLib {
  import opened Base
  import opened Types
  import opened Responses
  import AsistenciasPage

  /** Why `fetchGrupos` rejects: the request failed, or `.data` was read on null or undefined. */
  datatype FetchError = RequestFailed(e: AxiosError) | TypeError

  /**
   * `fetchGrupos`: a top-level array, else an array at `data.data`, else [];
   * a nullish body rejects, and so does a failed request.
   */
  function FetchGrupos(reply: Result<Json<Grupo>, AxiosError>): (r: Result<seq<Grupo>, FetchError>)
    ensures reply.Err? ==> r == Err(RequestFailed(reply.error))
    ensures reply.Ok? ==> (r.Err? <==> Nullish(reply.value))
    ensures reply.Ok? && reply.value.Arr? ==> r == Ok(reply.value.items)
  {
    if reply.Err? then Err(RequestFailed(reply.error))
    else
      var body := reply.value;
      if body.Arr? then Ok(body.items)
      else if Nullish(body) then Err(TypeError)
      else
        var d := Get(body, "data");
        if JsTruthy(d) && d.Arr? then Ok(d.items) else Ok([])
  }

  /** The reply shapes: an array, an object with a `data` array, any other object, nothing. */
  lemma FetchGruposShapes(xs: seq<Grupo>, fields: map<string, Json<Grupo>>)
    ensures FetchGrupos(Ok(Arr(xs))) == Ok(xs)
    ensures "data" in fields && fields["data"] == Arr(xs) ==> FetchGrupos(Ok(Obj(fields))) == Ok(xs)
    ensures "data" !in fields || !fields["data"].Arr? ==> FetchGrupos(Ok(Obj(fields))) == Ok([])
    ensures FetchGrupos(Ok(Null)) == Err(TypeError) && FetchGrupos(Ok(Undefined)) == Err(TypeError)
  {
  }

  /**
   * Where the library finds groups, the attendance page finds the same ones;
   * where the library rejects on a missing body, the page shows none.
   */
  lemma PageAgrees(reply: Result<Json<Grupo>, AxiosError>)
    ensures FetchGrupos(reply).Ok? && FetchGrupos(reply).value != [] ==>
      AsistenciasPage.CargarGrupos(reply) == FetchGrupos(reply).value
    ensures FetchGrupos(reply).Err? ==> AsistenciasPage.CargarGrupos(reply) == []
  {
  }

  /** The page also reads a `grupos` key, where the library finds nothing. */
  lemma PageReadsGruposKey(g: Grupo)
    ensures FetchGrupos(Ok(Obj(map["grupos" := Arr([g])]))) == Ok([])
    ensures AsistenciasPage.CargarGrupos(Ok(Obj(map["grupos" := Arr([g])]))) == [g]
  {
    var fields := map["grupos" := Arr([g])];
    assert "data" !in fields;
    assert "grupos" in fields;
  }
}
