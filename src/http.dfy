/** The JSON responses the route handlers return. */
module Http {
  import opened Json

  /** Status, JSON body and the headers set on the response (names as written, not case-folded). */
  datatype Response = Response(status: int, body: Json, headers: map<string, string>)

  /** `NextResponse.json(body, { status })` */
  function JsonResponse(body: map<string, Json>, status: int): Response
  {
    Response(status, JObj(body), map[])
  }
}
