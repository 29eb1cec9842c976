/**
 * The client of the graph database server: it keeps the authentication
 * header and the two endpoint URLs, builds the JSON body of each request,
 * hands the request to the HTTP transport and, for row queries, reshapes
 * the answer into one map per row.
 *
 * The transport (the HTTP POST, reading the answer and parsing it as
 * JSON) is a function parameter `post`; the base64 encoder is a function
 * parameter of the constructor.
 */
module Pyneo {
  import opened Wrappers
  import opened JsonValues
  import opened Reshaping
  import opened Endpoints

  /** A POST request: where it goes, its headers and its JSON body. */
  datatype HttpRequest = HttpRequest(url: string, headers: map<string, string>, body: Json)

  /** What the transport can report instead of a parsed answer. */
  datatype TransportError =
    | ConnectionFailed   // the server could not be reached
    | HttpStatus(code: int)  // a status the HTTP library raises for
    | NotJson            // the answer body is not JSON

  datatype QueryError =
    | Transport(failure: TransportError)
    | Malformed(problem: FormatError)

  /** The body of a row query: the query under "query" and nothing else. */
  function QueryBody(query: string): (body: Json)
    ensures body.JObject? && body.fields.Keys == {"query"}
    ensures body.fields["query"] == JString(query)
  {
    JObject(map["query" := JString(query)])
  }

  /**
   * The body of a graph query: one statement holding the query and asking
   * for graph-shaped results; no parameters are sent.
   */
  function GraphBody(query: string): (body: Json)
    ensures body.JObject? && body.fields.Keys == {"statements"}
    ensures var statements := body.fields["statements"];
      && statements.JArray? && |statements.items| == 1
      && statements.items[0].JObject?
      && statements.items[0].fields.Keys == {"statement", "resultDataContents"}
      && statements.items[0].fields["statement"] == JString(query)
      && statements.items[0].fields["resultDataContents"] == JArray([JString("graph")])
  {
    JObject(map["statements" := JArray([JObject(map[
      "statement" := JString(query),
      "resultDataContents" := JArray([JString("graph")])])])])
  }

  /** The headers of every request: JSON content and the Authorization header. */
  function RequestHeaders(authHeader: string): (headers: map<string, string>)
    ensures headers.Keys == {"Content-Type", "Authorization"}
    ensures headers["Content-Type"] == "application/json"
    ensures headers["Authorization"] == authHeader
  {
    map["Content-Type" := "application/json", "Authorization" := authHeader]
  }

  class GraphHandler {
    const authHeader: string
    const queryUrl: string
    const graphQueryUrl: string

    /** Computes the header and the URLs; no request is sent. */
    constructor (hostPort: string, username: string, password: string, encodeBase64: string -> string)
      ensures authHeader == AuthHeader(username, password, encodeBase64)
      ensures queryUrl == "http://" + hostPort + "/db/data/cypher"
      ensures graphQueryUrl == "http://" + hostPort + "/db/data/transaction/commit"
      ensures queryUrl == QueryUrl(hostPort) && graphQueryUrl == GraphQueryUrl(hostPort)
    {
      var base64string := DropLast(encodeBase64(Credentials(username, password)));
      authHeader := BASIC + base64string;
      queryUrl := SCHEME + hostPort + QUERY_PATH;
      graphQueryUrl := SCHEME + hostPort + GRAPH_QUERY_PATH;
    }

    /** The request a row query sends. */
    function QueryRequest(query: string): HttpRequest
    {
      HttpRequest(queryUrl, RequestHeaders(authHeader), QueryBody(query))
    }

    /** The request a graph query sends. */
    function GraphRequest(query: string): HttpRequest
    {
      HttpRequest(graphQueryUrl, RequestHeaders(authHeader), GraphBody(query))
    }

    /**
     * Sends a row query and reshapes the answer. A transport failure is
     * passed on; so is an answer that cannot be reshaped.
     */
    method SendQuery(query: string, post: HttpRequest -> Result<Json, TransportError>)
      returns (r: Result<seq<Row>, QueryError>)
      ensures post(QueryRequest(query)).Failure? ==>
        r == Failure(Transport(post(QueryRequest(query)).error))
      ensures post(QueryRequest(query)).Success? ==>
        var formatted := FormatResponse(post(QueryRequest(query)).value);
        && (formatted.Failure? ==> r == Failure(Malformed(formatted.error)))
        && (formatted.Success? ==> r == Success(formatted.value))
    {
      var queryParams: map<string, Json> := map[];
      queryParams := queryParams["query" := JString(query)];
      var req := HttpRequest(queryUrl, RequestHeaders(authHeader), JObject(queryParams));
      var reply := post(req);
      if reply.Failure? {
        return Failure(Transport(reply.error));
      }
      var formattedResponse := FormatQueryResponse(reply.value);
      match formattedResponse
      case Failure(e) => r := Failure(Malformed(e));
      case Success(rows) => r := Success(rows);
    }

    /** Sends a graph query; the parsed answer comes back unchanged. */
    method AskGraph(query: string, post: HttpRequest -> Result<Json, TransportError>)
      returns (r: Result<Json, TransportError>)
      ensures r == post(GraphRequest(query))
    {
      var queryParams: map<string, Json> := map[];
      queryParams := queryParams["statement" := JString(query)];
      queryParams := queryParams["resultDataContents" := JArray([JString("graph")])];
      var body := JObject(map["statements" := JArray([JObject(queryParams)])]);
      var req := HttpRequest(graphQueryUrl, RequestHeaders(authHeader), body);
      r := post(req);
    }

    /**
     * Reshapes a parsed row answer into one map per row, filling each map
     * pair by pair along `zip(columns, row)`.
     */
    static method FormatQueryResponse(response: Json) returns (r: Result<seq<Row>, FormatError>)
      ensures r == FormatResponse(response)
    {
      if !response.JObject? {
        return Failure(NotAnObject);
      }
      if "columns" !in response.fields {
        return Failure(MissingKey("columns"));
      }
      var colNames := response.fields["columns"];
      if "data" !in response.fields {
        return Failure(MissingKey("data"));
      }
      if !response.fields["data"].JArray? {
        return Failure(DataNotList);
      }
      var lines := response.fields["data"].items;
      var formattedResponse: seq<Row> := [];
      var i := 0;
      while i < |lines|
        invariant i <= |lines|
        invariant FormatLines(colNames, lines[..i]) == Success(formattedResponse)
      {
        assert lines[..i + 1][..i] == lines[..i];
        if !colNames.JArray? {
          FormatLinesFailureSticks(colNames, lines, i + 1);
          return Failure(ColumnsNotList);
        }
        var line := lines[i];
        if !line.JArray? {
          FormatLinesFailureSticks(colNames, lines, i + 1);
          return Failure(RowNotList);
        }
        var names, cells := colNames.items, line.items;
        var n := Min(|names|, |cells|);
        var formattedLine: Row := map[];
        var j := 0;
        while j < n
          invariant j <= n
          invariant ZipPrefix(names, cells, j) == Success(formattedLine)
        {
          if !names[j].JString? {
            ZipPrefixFailureSticks(names, cells, j + 1, n);
            FormatLinesFailureSticks(colNames, lines, i + 1);
            return Failure(NonStringColumn(names[j]));
          }
          formattedLine := formattedLine[names[j].str := cells[j]];
          j := j + 1;
        }
        formattedResponse := formattedResponse + [formattedLine];
        i := i + 1;
      }
      assert lines[..i] == lines;
      r := Success(formattedResponse);
    }
  }
}
