# pyadsbdb in Dafny

A model of `pyadsbdb`, a Python client for the adsbdb aviation web service
(`https://api.adsbdb.com/v0`). It covers everything between the caller's string and the
HTTP call, and the reshaping of the decoded JSON afterwards:

- the identifier grammars of `pyadsbdb/types.py`. An FAA N-Number matches
  `N[1-9][0-9]{0,4}[A-HJ-NP-Z]{0,2}`. A Mode-S code is six hexadecimal characters. Each
  grammar is written twice: once as the regular expression reads, and once as a hand-written
  recogniser. For the N-Number the recogniser is a scanner with five kinds of state. Lemmas prove the two
  forms agree on every string.
- the `from_dict` mappers of `types.py`:
  - `Airline.from_dict` puts the string `"None"` in each missing field.
  - `Aircraft`, `Airport` and `FlightRoute` use Python's `cls(**data)`. This succeeds only
    when the keys are exactly the constructor's parameter names.
- the `_get` helper. It joins the endpoint to the base URL and sorts transport outcomes into
  `{"error": message}` values.
- the two clients, as separate modules:
  - `PackagedClient` models `src/pyadsbdb/client.py`, the client `setup.py` installs. It
    validates the argument, then forwards the raw answer.
  - `TypedClient` models `pyadsbdb/client.py`. It validates through `_validate_str` and the
    identifier types, maps aircraft and airline answers, and returns a string for the Mode-S
    conversion.

Every operation that takes an argument has two stages. The plan (`Dispatch = Reject(message) | Send(endpoint)`)
validates the input and builds the endpoint. The finish maps what `_get` returned. The
network is a parameter `net: string -> Outcome`. It says how one GET of a URL ends:
- an answer, with a status, a body and the text of its HTTP error;
- a connection failure;
- a timeout;
- another request failure.

In each operation's contract, the rejected case does not mention `net`. So an input that
fails validation never reaches the network. In the accepted case the contract names the exact
URL that is requested.

Python behaviour is modelled as `Py<T> = Returns(value) | Raises(exception)`. This covers the
places where the code lets an exception escape:
- a 404 whose JSON body is not an object;
- a non-dictionary answer in the typed client;
- the unguarded `[0]` in `get_airline`.

The model follows the code, including these behaviours:
- `Aircraft.from_dict` does not default missing fields to null. Any missing or extra key
  makes it fail.
- `get_airline` does not report an empty or missing `response` list as an error value. The
  `[0]` raises `IndexError`. This contradicts the docstring's promise of an error response
  whenever there is an error (pyadsbdb/client.py:97-99).
- A 404 whose body is not JSON gives "Resource not found (404).".
- The installed client maps nothing. Only the typed client maps aircraft and airline answers.
- The typed `modeS2nNumber` does not pass transport errors through. It replaces them with
  "Invalid Mode-S <input>".
- Any status outside 400..599 counts as success, not only 200. This is the rule of
  `raise_for_status`.

## Model

| member | source | states |
|---|---|---|
| Identifiers.ScanDescribes | pyadsbdb/types.py:5 | after reading any prefix, the scanner's state says exactly how far that prefix matches the N-Number pattern; the dead state means the prefix read so far does not match |
| Identifiers.StepDescribes | pyadsbdb/types.py:5 | one scanner step keeps that description true for every state and character |
| Identifiers.RejectionPersists | pyadsbdb/types.py:5 | once a prefix of two or more characters fails the N-Number pattern, appending one more character cannot make it match |
| Identifiers.RejectionIsFinal | pyadsbdb/types.py:5 | once a prefix of two or more characters fails the N-Number pattern, no continuation of any length makes it match |
| Identifiers.IsNNumberMatchesPattern | pyadsbdb/types.py:5 | the scanner accepts a string iff it fully matches `N[1-9][0-9]{0,4}[A-HJ-NP-Z]{0,2}` |
| Identifiers.AcceptedNNumberShape | pyadsbdb/types.py:5 | every accepted N-Number has 2 to 8 characters, starts with `N` and a non-zero digit, and after the `N` holds only ASCII digits and the upper-case letters `A-H`, `J-N`, `P-Z`, so no `I`, no `O` and no lower-case letter of any alphabet |
| Identifiers.CreateNNumber | pyadsbdb/types.py:132-138 | `NNumber.create` succeeds iff the string matches the pattern, keeps it unchanged, and otherwise fails with the exact invalid-format message |
| Identifiers.HexRunIsLongestHexPrefix | pyadsbdb/types.py:146 | the Mode-S recogniser's count is the length of the longest hexadecimal prefix |
| Identifiers.IsModeSCodeMatchesPattern | pyadsbdb/types.py:146 | the Mode-S recogniser accepts a string iff it is six characters of `[0-9A-Fa-f]` |
| Identifiers.CreateModeSCode | pyadsbdb/types.py:144-150 | `ModeSCode.create` succeeds iff the string is six hexadecimal characters, preserves case, and otherwise fails with the exact six-hex message |
| Identifiers.ModeSCodeIsNotBlank | pyadsbdb/client.py:125-128 | a well-formed Mode-S code is never blank, so the blank check runs first without ever refusing a valid code |
| Identifiers.NNumberIsNotBlank | pyadsbdb/client.py:149-152 | a well-formed N-Number is never blank |
| Records.BindKeywords | pyadsbdb/types.py:35-36 | `cls(**data)` binds iff the keys equal the parameter names; otherwise it reports exactly the missing and unexpected names, and at least one of them |
| Records.AircraftAttributes | pyadsbdb/types.py:22-32 | an aircraft record has exactly the eleven constructor parameters as attributes |
| Records.AircraftFromDict | pyadsbdb/types.py:7-36 | `Aircraft.from_dict` succeeds iff the keys are exactly the eleven parameters; on success every attribute equals the same-named entry, with no defaults |
| Records.AircraftRoundTrip | pyadsbdb/types.py:34-36 | mapping a record's own attributes gives the record back |
| Records.AirlineAttributes | pyadsbdb/types.py:51-56 | an airline record has exactly the six named attributes |
| Records.AirlineFromDict | pyadsbdb/types.py:58-67 | `Airline.from_dict` never fails; a present key gives its entry (JSON null included) and an absent key gives the string "None" |
| Records.AirlineIgnoresOtherKeys | pyadsbdb/types.py:58-67 | keys other than the six named ones never change the record |
| Records.AirlineRoundTrip | pyadsbdb/types.py:58-67 | mapping a record's own attributes gives the record back |
| Records.AirlineFromEmpty | pyadsbdb/types.py:58-67 | an empty dictionary maps to six "None" placeholders |
| Records.AirportAttributes | pyadsbdb/types.py:83-91 | an airport record has exactly the nine constructor parameters as attributes |
| Records.AirportFromDict | pyadsbdb/types.py:70-95 | `Airport.from_dict` succeeds iff the keys are exactly the nine parameters, copying each entry unchanged |
| Records.AirportRoundTrip | pyadsbdb/types.py:93-95 | mapping a record's own attributes gives the record back |
| Records.FlightRouteAttributes | pyadsbdb/types.py:108-113 | a flight-route record has exactly the six constructor parameters as attributes |
| Records.FlightRouteFromDict | pyadsbdb/types.py:98-117 | `FlightRoute.from_dict` succeeds iff the keys are exactly the six parameters, copying each entry (nested objects unmapped) |
| Records.FlightRouteRoundTrip | pyadsbdb/types.py:115-117 | mapping a record's own attributes gives the record back |
| Text.NatText | pyadsbdb/client.py:16 | `str(n)` of a natural number is non-empty decimal digits, with a leading `0` only for zero |
| Text.NatTextRoundTrip | pyadsbdb/client.py:16 | reading the decimal text back gives the number |
| Text.IntText | pyadsbdb/client.py:16 | `str(i)` is non-empty; it starts with `-` iff `i` is negative; the decimal digits after any sign read back as the magnitude of `i` and have no leading zero unless the number is 0 |
| Json.PyIn | pyadsbdb/client.py:65 | `"error" in x` is key membership on a dict, element membership on a list and substring search on a string, and raises on anything else |
| Json.PySubscript | pyadsbdb/client.py:66 | `x["error"]` returns only for a dict that has the key |
| Json.PyGet | pyadsbdb/client.py:67 | `.get(key, default)` exists only on dicts, and gives the entry when present and the default otherwise |
| Json.PyFirst | pyadsbdb/client.py:106 | `x[0]` gives a list's first element or a string's first character; it raises `IndexError` when empty and `KeyError` on a dict |
| Transport.RequestUrl | pyadsbdb/client.py:21 | an endpoint starting with `http` is requested verbatim (even a relative one such as `httpbin`); any other becomes base URL, slash, endpoint; the result always starts with `http` |
| Transport.RequestUrlIdempotent | pyadsbdb/client.py:21 | joining an already joined URL changes nothing |
| Transport.RelativeEndpointJoined | pyadsbdb/client.py:21 | a `word/argument` endpoint reaches `https://api.adsbdb.com/v0/word/argument` |
| Transport.AbsoluteEndpointVerbatim | src/pyadsbdb/client.py:12 | an endpoint built from the base URL is requested exactly as built |
| Transport.Classify | pyadsbdb/client.py:22-38 | the outcome table: decoded body when no error status; 404 gives the service's `response` or "not found" (JSON object), the fixed 404 message (no JSON) or an escaping `AttributeError` (other JSON); other 4xx/5xx, connection, timeout and request failures give their own messages |
| Transport.FailuresBecomeErrorObjects | src/pyadsbdb/client.py:17-29 | every failed outcome becomes a one-key `{"error": ...}` value, except a 404 with a non-object JSON body, which raises |
| Transport.FailureClassesAreDistinguishable | pyadsbdb/client.py:32-38 | HTTP-error, connection, timeout and request-error results are pairwise different whatever texts the library attaches |
| TypedClient.ValidateStr | pyadsbdb/client.py:12-17 | no error iff the value is a non-blank string within the bound; blank or non-string is refused first; the too-long message is checked on the unstripped length |
| TypedClient.ErrorOf | pyadsbdb/client.py:65-66 | on a dict, the error message is the `error` entry when present |
| TypedClient.PlanAircraft | pyadsbdb/client.py:62-64 | refuses exactly missing or blank identifiers; otherwise requests `BASE_URL/aircraft/<id>` |
| TypedClient.FinishAircraft | pyadsbdb/client.py:65-73 | exceptions propagate; a non-dict answer raises; an `error` key wins; a non-dict `aircraft` is invalid format; otherwise success iff the keys are exactly the aircraft parameters, else a "Failed to parse aircraft data: " message |
| TypedClient.GetAircraftData | pyadsbdb/client.py:40-73 | a refused identifier gives its message for any network; otherwise the result is the finish applied to the answer for `BASE_URL/aircraft/<id>` |
| TypedClient.PlanFlightRoute | pyadsbdb/client.py:86-88 | refuses exactly missing or blank callsigns; otherwise requests `BASE_URL/callsign/<c>` |
| TypedClient.GetFlightRoute | pyadsbdb/client.py:75-88 | a refusal gives the error value; otherwise the `_get` result for that URL unchanged |
| TypedClient.PlanAirline | pyadsbdb/client.py:101-103 | sends iff the code is non-blank and at most 3 long; blank is refused before the length; otherwise requests `BASE_URL/airline/<code>` |
| TypedClient.FinishAirline | pyadsbdb/client.py:104-112 | an `error` key wins; a missing or empty `response` list raises; a dict element 0 is mapped by `Airline.from_dict`; any other element 0 is invalid format |
| TypedClient.GetAirline | pyadsbdb/client.py:90-112 | blank and over-long codes give their messages for any network; otherwise the finish applied to the answer for the airline URL |
| TypedClient.PlanModeSToNNumber | pyadsbdb/client.py:125-132 | sends iff the input is a Mode-S code; blank, then longer than 6, then bad grammar decide the message; otherwise requests `BASE_URL/mode-s/<code>` |
| TypedClient.FinishModeSToNNumber | pyadsbdb/client.py:132-136 | the result is the `response` string when it starts with `N`; every other dict answer gives "Invalid Mode-S <input>"; a non-dict answer raises |
| TypedClient.ModeSToNNumber | pyadsbdb/client.py:114-136 | a refused input gives its message for any network; otherwise the finish applied to the answer for the Mode-S URL |
| TypedClient.ModeSTransportErrorsReplaced | pyadsbdb/client.py:132-136 | a transport failure is not passed through but becomes "Invalid Mode-S <input>" |
| TypedClient.PlanNNumberToModeS | pyadsbdb/client.py:149-156 | sends iff the input matches the N-Number pattern; blank is refused before the grammar; otherwise requests `BASE_URL/n-number/<n>` |
| TypedClient.NNumberToModeS | pyadsbdb/client.py:139-156 | a refusal gives the error value; otherwise the `_get` result for that URL unchanged |
| TypedClient.GetOnlineStatus | pyadsbdb/client.py:159-160 | the `_get` result for `BASE_URL/online` unchanged |
| PackagedClient.PlanAircraft | src/pyadsbdb/client.py:33-35 | refuses exactly missing or blank identifiers; otherwise requests `BASE_URL/aircraft/<id>` |
| PackagedClient.GetAircraftData | src/pyadsbdb/client.py:31-35 | the non-empty message for any network, or the raw answer for the aircraft URL |
| PackagedClient.PlanFlightRoute | src/pyadsbdb/client.py:39-41 | refuses exactly missing or blank callsigns; otherwise requests `BASE_URL/callsign/<c>` |
| PackagedClient.GetFlightRoute | src/pyadsbdb/client.py:37-41 | the non-empty message for any network, or the raw answer for the callsign URL |
| PackagedClient.PlanAirline | src/pyadsbdb/client.py:45-49 | sends iff non-blank and at most 3 long; blank is refused before length |
| PackagedClient.GetAirline | src/pyadsbdb/client.py:43-49 | the two refusal messages for any network, otherwise the raw airline answer, not mapped |
| PackagedClient.PlanModeSToNNumber | src/pyadsbdb/client.py:53-57 | sends iff the input is a Mode-S code; a blank input gets the non-empty message, never the six-hex one |
| PackagedClient.ModeSToNNumber | src/pyadsbdb/client.py:51-57 | refusals for any network, otherwise the raw answer for `BASE_URL/mode-s/<code>` |
| PackagedClient.PlanNNumberToModeS | src/pyadsbdb/client.py:61-65 | sends iff the input is in the N-Number language of `types.py`; blank is refused before the grammar |
| PackagedClient.NNumberToModeS | src/pyadsbdb/client.py:59-65 | refusals for any network, otherwise the raw answer for `BASE_URL/n-number/<n>` |
| PackagedClient.GetOnlineStatus | src/pyadsbdb/client.py:67-69 | the raw answer for `BASE_URL/online` |
| ClientAgreement.TooLongMessageForThree | src/pyadsbdb/client.py:47-48 | `_validate_str`'s length message for a bound of 3 is the packaged client's literal message |
| ClientAgreement.NonEmptyMessagesAgree | pyadsbdb/client.py:13-14 | both clients word every non-empty refusal identically |
| ClientAgreement.PlansAgree | src/pyadsbdb/client.py:31-65 | aircraft, flight-route, airline and N-Number inputs are planned identically by both clients |
| ClientAgreement.ModeSPlansDifferOnlyInLengthMessage | src/pyadsbdb/client.py:53-57 | both clients accept the same Mode-S codes; their refusals differ exactly for non-blank inputs longer than six characters |
| ClientAgreement.ForwardingOperationsCoincide | src/pyadsbdb/client.py:37-69 | flight route, N-Number conversion and online status return the same result in both clients for every input and network |
| ClientAgreement.ErrorsReportedAlike | pyadsbdb/client.py:65-66 | an error value the packaged client forwards for aircraft or airline is the typed client's error too |
| Scenarios.PackagedForwardsAircraft | tests/test_client.py:10-15 | any 200 JSON body for `A1B2C3` is returned unchanged |
| Scenarios.PackagedForwardsFlightRoute | tests/test_client.py:17-22 | any 200 JSON body for `BA123` is returned unchanged |
| Scenarios.AirlineAnswer | tests/test_client.py:24-29 | the test's airline answer is forwarded by the packaged client; the typed client keeps `iata` null and fills the absent keys with "None" |
| Scenarios.PackagedRefusals | tests/test_client.py:31-58 | `TEST`, `12345G` and `01234Z` are refused with the exact messages, whatever the network |
| Scenarios.TypedRefusals | pyadsbdb/client.py:101-154 | the typed client refuses the same three inputs with the same messages |
| Scenarios.PackagedForwardsModeSConversion | tests/test_client.py:36-41 | any 200 JSON body for `A1B2C3` is returned unchanged |
| Scenarios.PackagedForwardsNNumberConversion | tests/test_client.py:48-53 | any 200 JSON body for `N12345` is returned unchanged |
| Scenarios.PackagedForwardsOnlineStatus | tests/test_client.py:60-65 | any 200 JSON body is returned unchanged |
| Scenarios.RejectedNNumbers | pyadsbdb/types.py:5 | `01234Z` (the spelling tests/test_client.py:55-58 uses) and the further samples `n123`, `N0123`, `N12I` and `N12AO` are rejected by the N-Number pattern |
| Scenarios.NotFoundCarriesServiceMessage | pyadsbdb/client.py:27-29 | a 404 with `{"response": "aircraft not found"}` becomes an error carrying that message in both clients |
| Scenarios.TypedTreatsErrorKeyAsFailure | pyadsbdb/client.py:65-66 | a 200 body with an `error` key is reported as that error |
| Scenarios.TypedMissingAircraftFailsToParse | pyadsbdb/client.py:67-73 | a 200 body without `aircraft` fails with the parse-failure prefix |
| Scenarios.ConnectionFailureForwarded | src/pyadsbdb/client.py:24-25 | a connection failure becomes the connection error value in all six packaged operations, for every input that passes that operation's validation |
| Scenarios.TypedModeSHidesConnectionFailure | pyadsbdb/client.py:132-136 | the typed Mode-S conversion turns a connection failure into "Invalid Mode-S A1B2C3" |

## Left out

- `requests.get`, HTTP and TLS: replaced by the `net` parameter. Each GET is one call of it, and the model has no retries, connection state or concurrency.
- JSON text decoding: bodies arrive already decoded (`Json`), or marked undecodable with the decoder's message. Duplicate keys in an object are not represented.
- Texts produced by the library, such as `str(http_err)`, `str(req_err)` and the JSON decoder's message: they come from the outcome as opaque strings after the fixed prefixes.
- The decoding failure of a success body is modelled as a `requests` `RequestException` ("Request error occurred: ..."). This is the behaviour of `requests` 2.27 and later; older versions let a plain `ValueError` escape.
- TypedClient.FinishAircraft: the text after "Failed to parse aircraft data: " only records whether an unexpected or a missing keyword caused the `TypeError`. Python's exact wording and the argument names are not reproduced.
- Exceptions other than those of `requests` (raised inside the transport) and `ConnectTimeout` as a separate case: `ConnectTimeout` is a `ConnectionError`, so the connection message is what the code returns.
- `isinstance(value, str)`: a non-string argument is `None` of an `Option<string>`.
- Whitespace for `str.strip()` is a fixed list of code points, the characters Python's `str.isspace` accepts. It is not tied to a Unicode database version.
- Python strings with lone surrogates: Dafny strings hold Unicode scalar values only.
- The float fields of `Airport` and every JSON number: they are carried as literal text and only copied.
- The `except` branch of `get_airline` (pyadsbdb/client.py:111-112): it cannot be reached, because `Airline.from_dict` never fails (`AirlineFromDict` is total).
- `ErrorResponse`, `FlightRouteResponseData` and `FlightRouteResponse` (pyadsbdb/types.py:38-39, 121-126): these are type annotations with no behaviour.
- The `__main__` demo blocks, `setup.py` metadata and the pytest/mocker fixtures: they are I/O scaffolding. The `Scenarios` lemmas restate what the tests assert.
