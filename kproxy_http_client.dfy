/** HttpClient of the newer revision (kproxy/http_client.cpp): how the REST
    requests to the proxy are addressed and which media headers they carry.
    Authentication and the transport are not part of this model. */
module KProxyHttpClient {

  import opened Json
  import QtArg

  /** The consumer media types (kMediaProtobuf, kMediaBinary). */
  const MediaProtobuf: string := "protobuf"
  const MediaBinary: string := "binary"

  const V2Prefix: string := "application/vnd.kafka"
  const V2Suffix: string := ".v2+json"
  const JsonType: string := "application/json"

  /** baseUrl: the server, a slash, then the path. */
  function BaseUrl(server: string, path: string): (u: string)
    ensures |u| == |server| + 1 + |path|
    ensures u[..|server|] == server && u[|server|] == '/' && u[|server| + 1..] == path
  {
    server + "/" + path
  }

  /** baseUrl as written: two chained arg calls on "%1/%2", the second of
      which also scans the server text the first one put in. */
  function BaseUrlAsWritten(server: string, path: string): string
  {
    QtArg.Substitute(QtArg.Substitute("%1/%2", server), path)
  }

  /** A server address without '%' gives the intended URL. */
  lemma BaseUrlAsWrittenAgrees(server: string, path: string)
    requires QtArg.NoPercent(server)
    ensures BaseUrlAsWritten(server, path) == BaseUrl(server, path)
  {
    assert "%1/%2" == "" + "%1" + "/" + "%2" + "";
    QtArg.TwoArgs("", "/", "", server, path);
    assert "" + server + "/" + path + "" == server + "/" + path;
  }

  /** A server address holding "%2" (a percent-encoded '/', as in
      "http://h/%2Fkp") gets the path spliced in there as well as after the
      slash, so the URL differs from the intended one. */
  lemma BaseUrlServerMarker(p: string, q: string, path: string)
    requires QtArg.NoPercent(p) && QtArg.NoPercent(q) && QtArg.NoLeadingDigit(q)
    requires |path| > 0 && path[0] != '%'
    ensures BaseUrlAsWritten(p + "%2" + q, path) == p + path + q + "/" + path
    ensures BaseUrlAsWritten(p + "%2" + q, path) != BaseUrl(p + "%2" + q, path)
  {
    var server := p + "%2" + q;
    assert "%1/%2" == "" + "%1" + "/" + "%2" + "";
    QtArg.FirstOfTwo("", "/", "", server);
    var mid := q + "/";
    assert QtArg.NoPercent(mid) && QtArg.NoLeadingDigit(mid) by {
      if |q| == 0 { assert mid == "/"; } else { assert mid[0] == q[0]; }
    }
    assert "" + server + "/" + "%2" + "" == p + ['%', '2'] + mid + ['%', '2'] + "";
    QtArg.SameTwice(p, '2', mid, "", path);
    assert p + path + mid + path + "" == p + path + q + "/" + path;
    var u := p + path + q + "/" + path;
    assert u[|p|] == path[0];
    assert BaseUrl(server, path)[|p|] == '%';
  }

  /** The Content-Type requestV2 builds for a media type; an empty type
      gives the plain v2 JSON type. */
  function ContentTypeV2(mediaType: string): (c: string)
    ensures mediaType == "" ==> c == "application/vnd.kafka.v2+json"
    ensures mediaType != "" ==> c == "application/vnd.kafka." + mediaType + ".v2+json"
  {
    var t := V2Prefix + (if mediaType != "" then "." + mediaType else "");
    t + V2Suffix
  }

  /** Reading the media type back from a v2 Content-Type. */
  function MediaTypeOf(contentType: string): (t: Option<string>)
  {
    if |contentType| < |V2Prefix| + |V2Suffix|
       || contentType[..|V2Prefix|] != V2Prefix
       || contentType[|contentType| - |V2Suffix|..] != V2Suffix
    then None
    else
      var middle := contentType[|V2Prefix|..|contentType| - |V2Suffix|];
      if middle == "" then Some("")
      else if middle[0] == '.' && |middle| > 1 then Some(middle[1..])
      else None
  }

  /** The Content-Type carries the media type unambiguously: different media
      types give different headers. */
  lemma {:induction false} ContentTypeV2RoundTrip(mediaType: string)
    ensures MediaTypeOf(ContentTypeV2(mediaType)) == Some(mediaType)
  {
    var c := ContentTypeV2(mediaType);
    var mid := if mediaType != "" then "." + mediaType else "";
    assert c == V2Prefix + mid + V2Suffix;
    assert c[..|V2Prefix|] == V2Prefix;
    assert c[|c| - |V2Suffix|..] == V2Suffix;
    assert c[|V2Prefix|..|c| - |V2Suffix|] == mid;
    if mediaType != "" {
      assert mid[1..] == mediaType;
    }
  }

  /** requestV2(path, type): the Accept header is set, to the Content-Type,
      only for the protobuf media type. */
  function RequestV2(server: string, path: string, mediaType: string): (r: Request)
    ensures r.url == BaseUrl(server, path)
    ensures MediaTypeOf(r.contentType) == Some(mediaType)
    ensures r.accept.Some? <==> mediaType == MediaProtobuf
    ensures r.accept.Some? ==> r.accept.value == r.contentType
  {
    ContentTypeV2RoundTrip(mediaType);
    var ct := ContentTypeV2(mediaType);
    Request(BaseUrl(server, path), ct, if mediaType == MediaProtobuf then Some(ct) else None)
  }

  /** requestV3: JSON in both directions. */
  function RequestV3(server: string, path: string): (r: Request)
    ensures r.url == BaseUrl(server, path)
    ensures r.contentType == JsonType && r.accept == Some(JsonType)
  {
    Request(BaseUrl(server, path), JsonType, Some(JsonType))
  }
}
