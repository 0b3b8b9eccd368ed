/**
 * The response format of the Subsonic API: the `f` query parameter picks
 * JSON or XML, and every response is wrapped in the same envelope.
 *
 * Serialization itself (serde, quick_xml) is not modelled: a rendered
 * response is the envelope value and, for XML, its content-type header.
 */
module Format {

  import opened Base

  const SUBSONIC_API_VERSION: string := "1.16.1"
  const STATUS_OK: string := "ok"
  const SERVER_TYPE: string := "beatlocker"
  const CONTENT_TYPE: string := "content-type"
  const XML_CONTENT_TYPE: string := "application/xml"

  datatype SubsonicContentType = Json | Xml

  datatype SubsonicFormat = SubsonicFormat(contentType: SubsonicContentType, serverVersion: string)

  /**
   * `SubsonicFormat::from_request_parts`. `f` is the decoded `FormatQuery`:
   * `None` when the parameter is missing or the query does not decode.
   */
  function FromRequest(f: Option<string>, serverVersion: string): (r: SubsonicFormat)
    ensures r.serverVersion == serverVersion
    ensures r.contentType == Json <==> f == Some("json")
  {
    match f
    case None => SubsonicFormat(Xml, serverVersion)
    case Some(value) =>
      if value == "json" then SubsonicFormat(Json, serverVersion) else SubsonicFormat(Xml, serverVersion)
  }

  /** `SubsonicResponse<T>`: the envelope around a payload. */
  datatype SubsonicResponse<T> = SubsonicResponse(status: string, version: string, ty: string, serverVersion: string, data: Option<T>)

  /** `XmlSubsonicResponse<T>`: the same envelope, shaped for the XML serializer. */
  datatype XmlSubsonicResponse<T> = XmlSubsonicResponse(status: string, version: string, ty: string, serverVersion: string, data: Option<T>)

  /** A rendered response: the JSON envelope, or the XML one with its headers. */
  datatype Rendered<T, X> =
    | JsonResponse(json: SubsonicResponse<T>)
    | XmlResponse(headers: seq<(string, string)>, xml: XmlSubsonicResponse<X>)

  /** The four envelope fields of a rendered response. */
  function Envelope<T, X>(r: Rendered<T, X>): (string, string, string, string)
  {
    match r
    case JsonResponse(j) => (j.status, j.version, j.ty, j.serverVersion)
    case XmlResponse(_, x) => (x.status, x.version, x.ty, x.serverVersion)
  }

  function MapOption<T, X>(o: Option<T>, f: T -> X): (r: Option<X>)
    ensures r.Some? <==> o.Some?
    ensures r.Some? ==> r.value == f(o.value)
  {
    match o
    case None => None
    case Some(v) => Some(f(v))
  }

  /** `SubsonicFormat::render`; `intoXml` is the payload's `ToXml::into_xml`. */
  function Render<T, X>(format: SubsonicFormat, data: Option<T>, intoXml: T -> X): (r: Rendered<T, X>)
    ensures Envelope(r) == (STATUS_OK, SUBSONIC_API_VERSION, SERVER_TYPE, format.serverVersion)
    ensures r.JsonResponse? <==> format.contentType == Json
    ensures r.JsonResponse? ==> r.json.data == data
    ensures r.XmlResponse? ==> (r.headers == [(CONTENT_TYPE, XML_CONTENT_TYPE)]
                                && (r.xml.data.Some? <==> data.Some?)
                                && (data.Some? ==> r.xml.data.value == intoXml(data.value)))
  {
    match format.contentType
    case Json => JsonResponse(SubsonicResponse(STATUS_OK, SUBSONIC_API_VERSION, SERVER_TYPE, format.serverVersion, data))
    case Xml =>
      XmlResponse([(CONTENT_TYPE, XML_CONTENT_TYPE)],
                  XmlSubsonicResponse(STATUS_OK, SUBSONIC_API_VERSION, SERVER_TYPE, format.serverVersion, MapOption(data, intoXml)))
  }

  /** `ToXml for ()`. */
  function UnitIntoXml(u: ()): ()
  {
    u
  }

  /** `render::<()>(None)`: the bare envelope, as the handlers that only change state answer. */
  function RenderNone(format: SubsonicFormat): (r: Rendered<(), ()>)
    ensures Envelope(r) == (STATUS_OK, SUBSONIC_API_VERSION, SERVER_TYPE, format.serverVersion)
    ensures r.JsonResponse? <==> format.contentType == Json
    ensures r.JsonResponse? ==> r.json.data.None?
    ensures r.XmlResponse? ==> r.xml.data.None?
  {
    Render(format, None, UnitIntoXml)
  }

  /** `ToXml for SubsonicResponse<T>`: every field carried over. */
  function ResponseIntoXml<T>(r: SubsonicResponse<T>): (x: XmlSubsonicResponse<T>)
    ensures x.status == r.status && x.version == r.version && x.ty == r.ty
    ensures x.serverVersion == r.serverVersion && x.data == r.data
  {
    XmlSubsonicResponse(r.status, r.version, r.ty, r.serverVersion, r.data)
  }

  /** The XML envelope read back as the JSON one, for the round trip below. */
  function ResponseFromXml<T>(x: XmlSubsonicResponse<T>): SubsonicResponse<T>
  {
    SubsonicResponse(x.status, x.version, x.ty, x.serverVersion, x.data)
  }

  /** Converting to XML loses nothing. */
  lemma ResponseIntoXmlLossless<T>(r: SubsonicResponse<T>)
    ensures ResponseFromXml(ResponseIntoXml(r)) == r
  {
  }

  /** Every value of `f` but `"json"`, and a missing or undecodable `f`, selects XML. */
  lemma XmlUnlessJson(f: Option<string>, serverVersion: string)
    requires f != Some("json")
    ensures Render(FromRequest(f, serverVersion), None, (u: ()) => u).XmlResponse?
  {
  }

  /** The XML rendering of a payload is the JSON one's XML conversion, under the same envelope. */
  lemma RenderAgrees<T, X>(serverVersion: string, data: Option<T>, intoXml: T -> X)
    ensures var j := Render(SubsonicFormat(Json, serverVersion), data, intoXml).json;
      var x := Render(SubsonicFormat(Xml, serverVersion), data, intoXml).xml;
      x == ResponseIntoXml(SubsonicResponse(j.status, j.version, j.ty, j.serverVersion, MapOption(j.data, intoXml)))
  {
  }
}
