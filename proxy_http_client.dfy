/** HttpClient of the older revision (proxy/http_client.cpp): the v2 request
    either is plain JSON with no Accept header or asks for protobuf records
    in both directions. */
module ProxyHttpClient {

  import opened Json
  import QtArg

  const ProtobufV2Type: string := "application/vnd.kafka.protobuf.v2+json"
  const JsonV2Type: string := "application/vnd.kafka.v2+json"
  const JsonType: string := "application/json"

  /** baseUrl: the server, a slash, then the path. */
  function BaseUrl(server: string, path: string): (u: string)
    ensures |u| == |server| + 1 + |path|
    ensures u[..|server|] == server && u[|server|] == '/' && u[|server| + 1..] == path
  {
    server + "/" + path
  }

  /** baseUrl as written: two chained arg calls on "%1/%2", the second of
      which also scans the server text the first one put in. */
  function BaseUrlAsWritten(server: string, path: string): string
  {
    QtArg.Substitute(QtArg.Substitute("%1/%2", server), path)
  }

  /** A server address without '%' gives the intended URL. */
  lemma BaseUrlAsWrittenAgrees(server: string, path: string)
    requires QtArg.NoPercent(server)
    ensures BaseUrlAsWritten(server, path) == BaseUrl(server, path)
  {
    assert "%1/%2" == "" + "%1" + "/" + "%2" + "";
    QtArg.TwoArgs("", "/", "", server, path);
    assert "" + server + "/" + path + "" == server + "/" + path;
  }

  /** A server address holding "%2" (a percent-encoded '/', as in
      "http://h/%2Fkp") gets the path spliced in there as well as after the
      slash, so the URL differs from the intended one. */
  lemma BaseUrlServerMarker(p: string, q: string, path: string)
    requires QtArg.NoPercent(p) && QtArg.NoPercent(q) && QtArg.NoLeadingDigit(q)
    requires |path| > 0 && path[0] != '%'
    ensures BaseUrlAsWritten(p + "%2" + q, path) == p + path + q + "/" + path
    ensures BaseUrlAsWritten(p + "%2" + q, path) != BaseUrl(p + "%2" + q, path)
  {
    var server := p + "%2" + q;
    assert "%1/%2" == "" + "%1" + "/" + "%2" + "";
    QtArg.FirstOfTwo("", "/", "", server);
    var mid := q + "/";
    assert QtArg.NoPercent(mid) && QtArg.NoLeadingDigit(mid) by {
      if |q| == 0 { assert mid == "/"; } else { assert mid[0] == q[0]; }
    }
    assert "" + server + "/" + "%2" + "" == p + ['%', '2'] + mid + ['%', '2'] + "";
    QtArg.SameTwice(p, '2', mid, "", path);
    assert p + path + mid + path + "" == p + path + q + "/" + path;
    var u := p + path + q + "/" + path;
    assert u[|p|] == path[0];
    assert BaseUrl(server, path)[|p|] == '%';
  }

  /** requestV2(path, protobufContent) */
  function RequestV2(server: string, path: string, protobufContent: bool): (r: Request)
    ensures r.url == BaseUrl(server, path)
    ensures protobufContent ==> r.contentType == ProtobufV2Type && r.accept == Some(ProtobufV2Type)
    ensures !protobufContent ==> r.contentType == JsonV2Type && r.accept == None
  {
    if protobufContent then Request(BaseUrl(server, path), ProtobufV2Type, Some(ProtobufV2Type))
    else Request(BaseUrl(server, path), JsonV2Type, None)
  }

  /** requestV3: JSON in both directions. */
  function RequestV3(server: string, path: string): (r: Request)
    ensures r.url == BaseUrl(server, path)
    ensures r.contentType == JsonType && r.accept == Some(JsonType)
  {
    Request(BaseUrl(server, path), JsonType, Some(JsonType))
  }
}
