/**
 * Value views of the HTTP request and response objects the core reads.
 * Their parsing and serialisation live outside the modelled core, so only
 * the fields the core reads are kept, as plain values.
 */
module Http {

  /** The accessors of HTTPRequest used by the core, as plain fields. */
  datatype Request = Request(
    httpMethod: string,
    path: string,
    queryString: string,
    headers: map<string, string>,
    body: string)

  /** The response object; its wire form is produced by a serialiser outside the core. */
  datatype Response = Response(
    statusCode: int,
    reasonPhrase: string,
    headers: map<string, string>,
    body: string)

  /** Header lookup as the core uses it: a missing header reads as the empty string. */
  function StrHeader(req: Request, name: string): (r: string)
    ensures name in req.headers ==> r == req.headers[name]
    ensures name !in req.headers ==> r == ""
  {
    if name in req.headers then req.headers[name] else ""
  }
}
