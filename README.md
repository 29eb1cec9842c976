# pyneo GraphHandler, modelled in Dafny

pyneo is a small Python client for a Neo4j graph database server. Its
`GraphHandler` class keeps a Basic authentication header and two endpoint
URLs, sends Cypher queries as JSON over HTTP and, for row queries, turns the
server's `{"columns": [...], "data": [[...], ...]}` answer into a list of
per-row maps. This project models that class and proves what it promises.

Files and modules:

- `wrappers.dfy` (`Wrappers`): `Option` and `Result`.
- `json.dfy` (`JsonValues`): the `Json` value type (null, bool, integer, string, array, object as a `map`).
- `reshaping.dfy` (`Reshaping`): what `format_query_response` computes, as functions
  (`ZipPrefix`, `FormatLine`, `FormatLines`, `FormatResponse`), and the lemmas about them.
- `escaping.dfy` (`Escaping`): `protect`, its inverse and their lemmas.
- `endpoints.dfy` (`Endpoints`): the endpoint URLs and the Authorization header.
- `graph_handler.dfy` (`Pyneo`): the `GraphHandler` class. Its three fields are
  `const`s set by the constructor. `SendQuery` and `AskGraph` build the request
  body step by step, as the Python code fills its local dict. The static method
  `FormatQueryResponse` is the nested loop over rows and `zip(columns, row)`. It is
  proved equal to `Reshaping.FormatResponse`.

Boundaries:

- The HTTP POST, reading the answer and `json.loads` are one collaborator. It is
  the parameter `post: HttpRequest -> Result<Json, TransportError>` of `SendQuery`
  and `AskGraph`.
- `base64.encodestring` is the parameter `encodeBase64: string -> string` of the
  constructor.
- Python exceptions that `format_query_response` can raise are `Failure` values
  of `FormatError`. These are: a response that is not a dict, a `KeyError` on
  "columns" or "data", and a "data", "columns" or row that cannot be iterated.
  As in Python, "columns" is only used when the first row is zipped. So an empty
  "data" gives an empty result whatever "columns" holds.

What the code does:

- The code always uses `http://`. It has no `secure` flag, although pyneo's own
  documentation shows `secure=True` (pyneo/__init__.py:62-63).
- `send_query` and `ask_graph` take only the query. No query parameters are sent:
  there is no "params" key and no "parameters" key, although the documentation
  shows a keyword parameter (pyneo/__init__.py:27-29).
- Only the `Content-Type` and `Authorization` headers are added. No `Accept` header is added.
- The header is "Basic " followed by the encoder's output with its last
  character removed. That last character is the trailing newline of `encodestring`.
- Rows whose length differs from the number of columns are not rejected. `zip`
  stops at the shorter of the two. A repeated column name keeps the cell of
  its last occurrence.

## Model

| member | source | states |
|---|---|---|
| `Pyneo.GraphHandler.FormatQueryResponse` | pyneo/graph_handler.py:95-105 | the nested loop over rows and zipped pairs returns exactly `FormatResponse(response)`, including its error cases |
| `Reshaping.FormatResponseWellFormed` | pyneo/graph_handler.py:98-105 | for string column names and list rows: success, one map per row in row order, row i's keys are exactly the first min(len(columns), len(row i)) names, and each such name maps to the cell of its last occurrence |
| `Reshaping.FormatResponseDistinctColumns` | pyneo/graph_handler.py:100-104 | with distinct column names, `result[i][columns[j]] == data[i][j]` for every j below min(len(columns), len(row i)) |
| `Reshaping.FormatResponseExample` | pyneo/tests/test_graph_handler.py:23-37 | columns a, b and rows [null, 1], [null, 2] give [{a: null, b: 1}, {a: null, b: 2}], so `result[0]["b"] == 1` |
| `Reshaping.FormatResponseEmptyData` | pyneo/graph_handler.py:98-100 | an empty "data" list gives an empty result, whatever "columns" holds |
| `Reshaping.FormatLinesRows` | pyneo/graph_handler.py:99-104 | reshaping succeeds iff every row does; then the result has one map per row and map i is row i's map |
| `Reshaping.FormatLinesFirstError` | pyneo/graph_handler.py:100-104 | when a row fails, the error reported is that of the first failing row |
| `Reshaping.FormatLinesFailureSticks` | pyneo/graph_handler.py:100-104 | once a prefix of the rows fails, the whole reshaping fails with the same error (the exception ends the loop) |
| `Reshaping.ZipPrefixFailureSticks` | pyneo/graph_handler.py:102-103 | once a pair fails, the row fails with the same error |
| `Reshaping.ZipPrefixSucceeds` | pyneo/graph_handler.py:102-103 | storing the first k pairs succeeds iff those k column names are strings |
| `Reshaping.ZipPrefixKeys` | pyneo/graph_handler.py:102-103 | the keys of the row map are exactly the first k column names |
| `Reshaping.ZipPrefixLastWins` | pyneo/graph_handler.py:102-103 | a name maps to the cell of its last occurrence among the first k pairs (later assignments overwrite earlier ones) |
| `Reshaping.FormatResponse` | pyneo/graph_handler.py:98-105 | the reshaping as a function, in the code's order of lookups and failures; its properties are stated by `FormatResponseWellFormed`, `FormatResponseDistinctColumns`, `FormatResponseEmptyData` and `FormatResponseExample`, and `FormatQueryResponse` is proved equal to it |
| `Reshaping.FormatLines` | pyneo/graph_handler.py:100-104 | the outer loop: rows in order, stopping at the first failing row; stated by `FormatLinesRows`, `FormatLinesFirstError` and `FormatLinesFailureSticks` |
| `Reshaping.FormatLine` | pyneo/graph_handler.py:101-104 | one row: zip fails first on non-list columns, then on a non-list row, and otherwise stores min(len(columns), len(row)) pairs; its row map is described by `ZipPrefixKeys` and `ZipPrefixLastWins` |
| `Reshaping.ZipPrefix` | pyneo/graph_handler.py:102-103 | the inner loop after k pairs; stated by `ZipPrefixSucceeds`, `ZipPrefixKeys`, `ZipPrefixLastWins` and `ZipPrefixFailureSticks` |
| `Endpoints.Credentials` | pyneo/graph_handler.py:55 | the text "username:password" that is encoded; used by `AuthHeader`, whose contract states the header built from it |
| `Endpoints.EndpointUrl` | pyneo/graph_handler.py:58-60 | "http://" + host_port + path; its inverse is `ParseEndpoint`, and `ParseEndpointIff` and `EndpointInjective` state the round trip and injectivity |
| `Endpoints.QueryUrl` | pyneo/graph_handler.py:58 | the row-query endpoint ".../db/data/cypher"; `EndpointsDistinct` proves it never equals a graph-query URL |
| `Endpoints.GraphQueryUrl` | pyneo/graph_handler.py:59-60 | the graph endpoint ".../db/data/transaction/commit"; `EndpointsDistinct` proves it never equals a row-query URL |
| `Pyneo.GraphHandler.QueryRequest` | pyneo/graph_handler.py:69-72 | the request `send_query` sends: `queryUrl`, the headers of `RequestHeaders` and the body of `QueryBody`, whose contracts give their exact keys and values; `SendQuery` is proved to send it |
| `Pyneo.GraphHandler.GraphRequest` | pyneo/graph_handler.py:87-90 | the request `ask_graph` sends: `graphQueryUrl`, the headers of `RequestHeaders` and the body of `GraphBody`; `AskGraph` is proved to send it |
| `Escaping.Protect` | pyneo/graph_handler.py:107-110 | the output length is the input length plus the number of quotes; the output equals the input iff the input has no quote |
| `Escaping.Unprotect` | pyneo/graph_handler.py:110 | the inverse rewrite (a backslash before a quote is dropped) never lengthens its input |
| `Escaping.UnprotectProtect` | pyneo/graph_handler.py:110 | `Unprotect(Protect(s)) == s`: every character is kept, in order |
| `Escaping.ProtectInjective` | pyneo/graph_handler.py:110 | two strings with the same escaped form are equal |
| `Escaping.ProtectAppend` | pyneo/graph_handler.py:110 | escaping distributes over concatenation: each character is rewritten on its own |
| `Escaping.ProtectHead` | pyneo/graph_handler.py:110 | an escaped non-empty string never starts with a quote |
| `Escaping.ProtectNoBareQuote` | pyneo/graph_handler.py:110 | in an escaped string every quote comes right after a backslash |
| `Endpoints.ParseEndpoint` | pyneo/graph_handler.py:58-60 | a "host:port" read back out of a URL rebuilds that URL |
| `Endpoints.ParseEndpointIff` | pyneo/graph_handler.py:58-60 | a URL parses to h iff it is `"http://" + h + path` |
| `Endpoints.EndpointInjective` | pyneo/graph_handler.py:58-60 | different "host:port" values give different endpoint URLs |
| `Endpoints.EndpointsDistinct` | pyneo/graph_handler.py:58-60 | a row-query URL is never equal to a graph-query URL, for any two servers |
| `Endpoints.DropLast` | pyneo/graph_handler.py:55-56 | Python's `s[:-1]`: empty stays empty; otherwise the result followed by the last character is `s` |
| `Endpoints.AuthHeader` | pyneo/graph_handler.py:55-57 | the header starts with "Basic "; with the encoder's last character put back it is "Basic " + encoding (or just "Basic " for an empty encoding) |
| `Endpoints.AuthHeaderDropsNewline` | pyneo/graph_handler.py:55-57 | when the encoding ends in a newline, header + newline == "Basic " + encoding |
| `Pyneo.GraphHandler.constructor` | pyneo/graph_handler.py:30-60 | `authHeader == AuthHeader(username, password, encoder)`, `queryUrl == "http://" + hostPort + "/db/data/cypher"`, `graphQueryUrl == "http://" + hostPort + "/db/data/transaction/commit"` |
| `Pyneo.QueryBody` | pyneo/graph_handler.py:67-68 | the row-query body is an object whose only key is "query", holding the query |
| `Pyneo.GraphBody` | pyneo/graph_handler.py:83-86 | the graph-query body's only key is "statements": a one-element list whose object has exactly "statement" (the query) and "resultDataContents" (["graph"]), and no "parameters" |
| `Pyneo.RequestHeaders` | pyneo/graph_handler.py:71-72 | the headers are exactly Content-Type (application/json) and Authorization (the stored header) |
| `Pyneo.GraphHandler.SendQuery` | pyneo/graph_handler.py:62-76 | the step-by-step body is `QueryBody` sent to `queryUrl`; a transport failure is passed on; otherwise the result is the reshaped answer or its reshaping error |
| `Pyneo.GraphHandler.AskGraph` | pyneo/graph_handler.py:78-93 | the step-by-step body is `GraphBody` sent to `graphQueryUrl`, and the parsed answer is returned unchanged |

## Left out

- HTTP transport (`urllib2.Request`, `urlopen`, `read`): network I/O. It is the parameter `post`, including its failures (connection, HTTP status, a body that is not JSON).
- `json.dumps` / `json.loads`: bodies and answers are `Json` values, not text.
- The internals of `base64.encodestring`: it is the parameter `encodeBase64`. The model claims only that its last character is cut off. It does not model that the encoder inserts a newline every 76 characters, which long credentials would keep.
- `urllib2`'s normalisation of header names (it stores `Content-Type` as `Content-type`): header names are kept as written in the code.
- Python iterates a string or a dict as a sequence of characters or keys. The model treats a "data", "columns" or row that is not a list as an error (`DataNotList`, `ColumnsNotList`, `RowNotList`).
- Column names that are not strings: Python would use any hashable one as a dict key. The model's row maps have string keys, so such a name is the error `NonStringColumn` when zip reaches it. The server always sends string names.
- Python 2 byte strings and text strings: every string is a sequence of characters. So the model does not capture that `'{}:{}'.format(username, password)` (pyneo/graph_handler.py:55) or the URL formatting (pyneo/graph_handler.py:58-60) raises `UnicodeEncodeError` at construction when given a non-ASCII `unicode` argument. The modelled constructor succeeds for every string.
- Non-integer JSON numbers: `Json` has integers only.
- Dict insertion order: rows are `map`s, so the order of keys inside a row is not modelled. Dicts in Python 2 do not keep it either.
- The documentation module and packaging (`pyneo/__init__.py`, `setup.py`): they contain no logic. The keyword parameters and `secure=True` shown in the documentation are not implemented by the code.
- Purity of the reshaping: the input is an immutable value and the spec is a function, so calling it twice gives the same result and the input is never modified. No separate lemma states this.
