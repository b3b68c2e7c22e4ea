/** The `_get` helper the two clients share word for word: it joins the endpoint to the base
    URL, performs one GET through the transport, and turns every failure the `requests`
    library reports into the `{"error": message}` value. The network itself is a parameter:
    a `Network` says what one GET of a URL ends in. */
module Transport {

  import opened Text
  import opened Json

  const BaseUrl := "https://api.adsbdb.com/v0"

  /** A response body as `response.json()` sees it: decodable JSON, or text whose decoding
      raises (the decoder's message is kept). */
  datatype Body = Decoded(value: Json) | Undecodable(decodeError: string)

  /** How one GET ends. `Answered` carries the status, the body and the text `str()` gives of
      the `HTTPError` that `raise_for_status` would raise for it. A connect timeout is a
      `ConnectionFailed` (it is a `ConnectionError` in `requests`); `TimedOut` is a read
      timeout; `RequestFailed` is any other `RequestException`, with its text. */
  datatype Outcome =
    | Answered(status: int, body: Body, httpErrorText: string)
    | ConnectionFailed
    | TimedOut
    | RequestFailed(text: string)

  type Network = string -> Outcome

  const ConnectionMessage := "Connection error occurred. " + "Please check your network."
  const TimeoutMessage := "The request timed out."
  const NotFoundMessage := "Resource not found (404)."
  const HttpErrorPrefix := "HTTP error occurred: "
  const RequestErrorPrefix := "Request error occurred: "

  /** The URL `_get` requests: an endpoint that starts with `http` is taken as it is, anything
      else is appended to the base URL after a slash. */
  function RequestUrl(endpoint: string): (url: string)
    ensures StartsWith(url, "http")
    ensures StartsWith(endpoint, "http") ==> url == endpoint
    ensures !StartsWith(endpoint, "http") ==> url == BaseUrl + "/" + endpoint
  {
    if StartsWith(endpoint, "http") then endpoint
    else
      PrefixOfConcat("http", "s://api.adsbdb.com/v0/" + endpoint);
      BaseUrl + "/" + endpoint
  }

  /** Joining is idempotent: a joined URL is absolute, so joining it again changes nothing. */
  lemma RequestUrlIdempotent(endpoint: string)
    ensures RequestUrl(RequestUrl(endpoint)) == RequestUrl(endpoint)
  {
  }

  /** An endpoint built from the base URL reaches exactly that URL. */
  lemma AbsoluteEndpointVerbatim(path: string)
    ensures RequestUrl(BaseUrl + path) == BaseUrl + path
  {
    assert BaseUrl[..4] == "http" by {
      assert BaseUrl[0] == 'h' && BaseUrl[1] == 't' && BaseUrl[2] == 't' && BaseUrl[3] == 'p';
    }
    PrefixPersists(BaseUrl, "http", path);
  }

  /** A relative endpoint `<word>/<argument>` reaches `BaseUrl/<word>/<argument>`. */
  lemma RelativeEndpointJoined(word: string, argument: string)
    requires |word| > 0 && word[0] != 'h'
    ensures RequestUrl(word + "/" + argument) == BaseUrl + "/" + word + "/" + argument
  {
    FirstCharDecidesPrefix(word + "/" + argument, "http");
    assert BaseUrl + "/" + (word + "/" + argument) == BaseUrl + "/" + word + "/" + argument;
  }

  /** Stage one of every facade: refuse the input with a message, or send one GET for an
      endpoint. */
  datatype Dispatch = Reject(message: string) | Send(endpoint: string)

  /** `raise_for_status` raises for client (4xx) and server (5xx) statuses only. */
  predicate IsHttpErrorStatus(status: int) {
    400 <= status < 600
  }

  /** What `_get` returns, or the exception that escapes it, for one transport outcome. */
  function Classify(outcome: Outcome): (r: Py<Json>)
    // A response whose status raises nothing hands back its decoded body.
    ensures outcome.Answered? && !IsHttpErrorStatus(outcome.status) && outcome.body.Decoded? ==>
      r == Returns(outcome.body.value)
    // A body that does not decode is a request error (the decoder's error is a `RequestException`).
    ensures outcome.Answered? && !IsHttpErrorStatus(outcome.status) && outcome.body.Undecodable? ==>
      r == Returns(ErrorText(RequestErrorPrefix + outcome.body.decodeError))
    // 404: the service's own message under `response`, else "not found"; a body that is no
    // JSON at all gives the fixed not-found message.
    ensures outcome.Answered? && outcome.status == 404 && outcome.body.Decoded? && outcome.body.value.Object? ==>
      var m := outcome.body.value.fields;
      r == Returns(ErrorObject(if "response" in m then m["response"] else Str("not found")))
    ensures outcome.Answered? && outcome.status == 404 && outcome.body.Undecodable? ==>
      r == Returns(ErrorText(NotFoundMessage))
    // 404 with a JSON body that is not an object: `.get` escapes the handler.
    ensures outcome.Answered? && outcome.status == 404 && outcome.body.Decoded? && !outcome.body.value.Object? ==>
      r == Raises(AttributeError)
    ensures outcome.Answered? && IsHttpErrorStatus(outcome.status) && outcome.status != 404 ==>
      r == Returns(ErrorText(HttpErrorPrefix + outcome.httpErrorText))
    ensures outcome.ConnectionFailed? ==> r == Returns(ErrorText(ConnectionMessage))
    ensures outcome.TimedOut? ==> r == Returns(ErrorText(TimeoutMessage))
    ensures outcome.RequestFailed? ==> r == Returns(ErrorText(RequestErrorPrefix + outcome.text))
  {
    match outcome
    case Answered(status, body, httpErrorText) =>
      if IsHttpErrorStatus(status) then
        if status == 404 then
          (match body
           case Undecodable(_) => Returns(ErrorText(NotFoundMessage))
           case Decoded(value) =>
             var message :- PyGet(value, "response", Str("not found"));
             Returns(ErrorObject(message)))
        else Returns(ErrorText(HttpErrorPrefix + httpErrorText))
      else
        (match body
         case Decoded(value) => Returns(value)
         case Undecodable(decodeError) => Returns(ErrorText(RequestErrorPrefix + decodeError)))
    case ConnectionFailed => Returns(ErrorText(ConnectionMessage))
    case TimedOut => Returns(ErrorText(TimeoutMessage))
    case RequestFailed(text) => Returns(ErrorText(RequestErrorPrefix + text))
  }

  /** `_get(endpoint)` against a network. */
  function Get(endpoint: string, net: Network): Py<Json> {
    Classify(net(RequestUrl(endpoint)))
  }

  /** The outcome did not deliver a usable body: an error status, an undecodable body, or no
      response at all. */
  predicate IsFailure(outcome: Outcome) {
    !outcome.Answered? || IsHttpErrorStatus(outcome.status) || outcome.body.Undecodable?
  }

  /** Failures never escape as exceptions except in one case (a 404 whose JSON body is not an
      object), and otherwise always take the uniform shape `{"error": ...}`. */
  lemma FailuresBecomeErrorObjects(outcome: Outcome)
    requires IsFailure(outcome)
    ensures Classify(outcome).Raises? <==>
      outcome.Answered? && outcome.status == 404 && outcome.body.Decoded? && !outcome.body.value.Object?
    ensures Classify(outcome).Returns? ==>
      var v := Classify(outcome).value;
      v.Object? && v.fields.Keys == {"error"}
  {
  }

  /** The four failure classes the library names itself (an HTTP error other than 404, a
      connection failure, a timeout, any other request error) give four different messages,
      whatever texts the library attaches. */
  lemma FailureClassesAreDistinguishable(status: int, body: Body, httpText: string, requestText: string)
    requires IsHttpErrorStatus(status) && status != 404
    ensures var http := Classify(Answered(status, body, httpText));
      var connection := Classify(ConnectionFailed);
      var timeout := Classify(TimedOut);
      var request := Classify(RequestFailed(requestText));
      && http != connection && http != timeout && http != request
      && connection != timeout && connection != request
      && timeout != request
  {
    DifferentLeadsDiffer(HttpErrorPrefix, ConnectionMessage, httpText, "");
    DifferentLeadsDiffer(HttpErrorPrefix, TimeoutMessage, httpText, "");
    DifferentLeadsDiffer(HttpErrorPrefix, RequestErrorPrefix, httpText, requestText);
    DifferentLeadsDiffer(ConnectionMessage, TimeoutMessage, "", "");
    DifferentLeadsDiffer(ConnectionMessage, RequestErrorPrefix, "", requestText);
    DifferentLeadsDiffer(TimeoutMessage, RequestErrorPrefix, "", requestText);
    assert ConnectionMessage + "" == ConnectionMessage;
    assert TimeoutMessage + "" == TimeoutMessage;
  }
}
