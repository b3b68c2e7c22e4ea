/** The client of `pyadsbdb/client.py`: validation through `_validate_str` and the identifier
    types, typed mapping of aircraft and airline answers, and a string result for the Mode-S
    conversion. Each operation is a plan (validate, build the endpoint) followed by a finish
    (map the `_get` result); the transport is the `net` parameter. */
module TypedClient {

  import opened Wrappers
  import opened Text
  import opened Json
  import opened Identifiers
  import opened Records
  import opened Transport

  /** What a typed operation hands back: its value, or the `{"error": ...}` response. */
  datatype Reply<+T> = Value(value: T) | ErrorResponse(error: Json)

  const InvalidAircraftMessage := "Invalid aircraft data format."
  const InvalidAirlineMessage := "Invalid airline data format."
  const AircraftParsePrefix := "Failed to parse aircraft data: "

  function NonEmptyMessage(name: string): string {
    name + " must be a non-empty string."
  }

  function TooLongMessage(name: string, maxLen: int): string {
    name + " must be at most " + IntText(maxLen) + " characters long."
  }

  /** `_validate_str`: a missing (non-`str`) or blank value is refused first; then, when a bound
      is given, a value longer than it (counted before stripping) is refused. */
  function ValidateStr(value: Option<string>, name: string, maxLen: Option<int>): (r: Option<string>)
    ensures r.None? <==> value.Some? && !IsBlank(value.value) && (maxLen.None? || |value.value| <= maxLen.value)
    ensures value.None? || IsBlank(value.value) ==> r == Some(NonEmptyMessage(name))
    ensures value.Some? && !IsBlank(value.value) && maxLen.Some? && |value.value| > maxLen.value ==>
      r == Some(TooLongMessage(name, maxLen.value))
  {
    if value.None? || IsBlank(value.value) then Some(NonEmptyMessage(name))
    else if maxLen.Some? && |value.value| > maxLen.value then Some(TooLongMessage(name, maxLen.value))
    else None
  }

  /** The suffix of a failed `cls(**data)`. Python names the first unexpected keyword, or else
      the missing parameters; the model keeps which of the two cases arose. */
  function TypeErrorText(className: string, m: Mismatch): string {
    if m.unexpected != {} then className + ".__init__() got an unexpected keyword argument"
    else className + ".__init__() missing required positional arguments"
  }

  /** Python's `"error" in response` followed by `response["error"]`: the message of an error
      answer, if the answer is one. */
  function ErrorOf(response: Json): (r: Py<Option<Json>>)
    ensures response.Object? ==>
      r == Returns(if "error" in response.fields then Some(response.fields["error"]) else None)
  {
    var hasError :- PyIn("error", response);
    if hasError then
      var message :- PySubscript(response, "error");
      Returns(Some(message))
    else Returns(None)
  }

  // ---------------------------------------------------------------------------------------
  // get_aircraft_data

  function PlanAircraft(identifier: Option<string>): (d: Dispatch)
    ensures d.Reject? <==> identifier.None? || IsBlank(identifier.value)
    ensures d.Reject? ==> d.message == NonEmptyMessage("Identifier")
    ensures d.Send? ==> RequestUrl(d.endpoint) == BaseUrl + "/aircraft/" + identifier.value
  {
    match ValidateStr(identifier, "Identifier", None)
    case Some(err) => Reject(err)
    case None =>
      RelativeEndpointJoined("aircraft", identifier.value);
      assert BaseUrl + "/" + "aircraft" + "/" + identifier.value == BaseUrl + "/aircraft/" + identifier.value;
      Send("aircraft/" + identifier.value)
  }

  /** Everything after `_get` in `get_aircraft_data`. */
  function FinishAircraft(fetched: Py<Json>): (r: Py<Reply<Aircraft>>)
    ensures fetched.Raises? ==> r == Raises(fetched.exception)
    // Only a dictionary answer survives `"error" in ...` and `.get`.
    ensures fetched.Returns? ==> (r.Returns? <==> fetched.value.Object?)
    ensures fetched.Returns? && fetched.value.Object? ==>
      var m := fetched.value.fields;
      if "error" in m then r == Returns(ErrorResponse(m["error"]))
      else if "aircraft" in m && !m["aircraft"].Object? then r == Returns(ErrorResponse(Str(InvalidAircraftMessage)))
      else
        var data := if "aircraft" in m then m["aircraft"].fields else map[];
        && r.Returns?
        && (r.value.Value? <==> data.Keys == AircraftParams)
        && (r.value.Value? ==> AircraftAttributes(r.value.value) == data)
        && (r.value.ErrorResponse? ==>
              r.value.error.Str? && StartsWith(r.value.error.s, AircraftParsePrefix))
  {
    var response :- fetched;
    var error :- ErrorOf(response);
    if error.Some? then Returns(ErrorResponse(error.value))
    else
      var data :- PyGet(response, "aircraft", Object(map[]));
      if !data.Object? then Returns(ErrorResponse(Str(InvalidAircraftMessage)))
      else
        match AircraftFromDict(data.fields)
        case Success(a) => Returns(Value(a))
        case Failure(m) =>
          PrefixOfConcat(AircraftParsePrefix, TypeErrorText("Aircraft", m));
          Returns(ErrorResponse(Str(AircraftParsePrefix + TypeErrorText("Aircraft", m))))
  }

  /** `get_aircraft_data(identifier)`. */
  function GetAircraftData(identifier: Option<string>, net: Network): (r: Py<Reply<Aircraft>>)
    ensures identifier.None? || IsBlank(identifier.value) ==>
      r == Returns(ErrorResponse(Str(NonEmptyMessage("Identifier"))))
    ensures identifier.Some? && !IsBlank(identifier.value) ==>
      r == FinishAircraft(Classify(net(BaseUrl + "/aircraft/" + identifier.value)))
  {
    match PlanAircraft(identifier)
    case Reject(message) => Returns(ErrorResponse(Str(message)))
    case Send(endpoint) => FinishAircraft(Get(endpoint, net))
  }

  // ---------------------------------------------------------------------------------------
  // get_flight_route

  function PlanFlightRoute(callsign: Option<string>): (d: Dispatch)
    ensures d.Reject? <==> callsign.None? || IsBlank(callsign.value)
    ensures d.Reject? ==> d.message == NonEmptyMessage("Callsign")
    ensures d.Send? ==> RequestUrl(d.endpoint) == BaseUrl + "/callsign/" + callsign.value
  {
    match ValidateStr(callsign, "Callsign", None)
    case Some(err) => Reject(err)
    case None =>
      RelativeEndpointJoined("callsign", callsign.value);
      assert BaseUrl + "/" + "callsign" + "/" + callsign.value == BaseUrl + "/callsign/" + callsign.value;
      Send("callsign/" + callsign.value)
  }

  /** `get_flight_route(callsign)`: the `_get` result is returned as it is. */
  function GetFlightRoute(callsign: Option<string>, net: Network): (r: Py<Json>)
    ensures callsign.None? || IsBlank(callsign.value) ==> r == Returns(ErrorText(NonEmptyMessage("Callsign")))
    ensures callsign.Some? && !IsBlank(callsign.value) ==>
      r == Classify(net(BaseUrl + "/callsign/" + callsign.value))
  {
    match PlanFlightRoute(callsign)
    case Reject(message) => Returns(ErrorText(message))
    case Send(endpoint) => Get(endpoint, net)
  }

  // ---------------------------------------------------------------------------------------
  // get_airline

  function PlanAirline(code: Option<string>): (d: Dispatch)
    ensures d.Send? <==> code.Some? && !IsBlank(code.value) && |code.value| <= 3
    ensures code.None? || IsBlank(code.value) ==> d == Reject(NonEmptyMessage("Airline code"))
    ensures code.Some? && !IsBlank(code.value) && |code.value| > 3 ==> d == Reject(TooLongMessage("Airline code", 3))
    ensures d.Send? ==> RequestUrl(d.endpoint) == BaseUrl + "/airline/" + code.value
  {
    match ValidateStr(code, "Airline code", Some(3))
    case Some(err) => Reject(err)
    case None =>
      RelativeEndpointJoined("airline", code.value);
      assert BaseUrl + "/" + "airline" + "/" + code.value == BaseUrl + "/airline/" + code.value;
      Send("airline/" + code.value)
  }

  /** Everything after `_get` in `get_airline`: element 0 of the `response` list is mapped.
      Indexing a missing or empty list is not guarded and raises `IndexError`. */
  function FinishAirline(fetched: Py<Json>): (r: Py<Reply<Airline>>)
    ensures fetched.Raises? ==> r == Raises(fetched.exception)
    ensures fetched.Returns? && !fetched.value.Object? ==> r.Raises?
    ensures fetched.Returns? && fetched.value.Object? ==>
      var m := fetched.value.fields;
      if "error" in m then r == Returns(ErrorResponse(m["error"]))
      else if "response" !in m then r == Raises(IndexError)
      else
        var list := m["response"];
        if list.Array? && |list.items| > 0 then
          if list.items[0].Object? then r == Returns(Value(AirlineFromDict(list.items[0].fields)))
          else r == Returns(ErrorResponse(Str(InvalidAirlineMessage)))
        else if list.Str? && |list.s| > 0 then r == Returns(ErrorResponse(Str(InvalidAirlineMessage)))
        else r.Raises?
  {
    var response :- fetched;
    var error :- ErrorOf(response);
    if error.Some? then Returns(ErrorResponse(error.value))
    else
      var list :- PyGet(response, "response", Array([]));
      var first :- PyFirst(list);
      if !first.Object? then Returns(ErrorResponse(Str(InvalidAirlineMessage)))
      else Returns(Value(AirlineFromDict(first.fields)))
  }

  /** `get_airline(airline_code)`. */
  function GetAirline(code: Option<string>, net: Network): (r: Py<Reply<Airline>>)
    ensures code.None? || IsBlank(code.value) ==> r == Returns(ErrorResponse(Str(NonEmptyMessage("Airline code"))))
    ensures code.Some? && !IsBlank(code.value) && |code.value| > 3 ==>
      r == Returns(ErrorResponse(Str(TooLongMessage("Airline code", 3))))
    ensures code.Some? && !IsBlank(code.value) && |code.value| <= 3 ==>
      r == FinishAirline(Classify(net(BaseUrl + "/airline/" + code.value)))
  {
    match PlanAirline(code)
    case Reject(message) => Returns(ErrorResponse(Str(message)))
    case Send(endpoint) => FinishAirline(Get(endpoint, net))
  }

  // ---------------------------------------------------------------------------------------
  // modeS2nNumber

  /** Blank first, then at most 6 characters, then the Mode-S grammar. */
  function PlanModeSToNNumber(modeS: Option<string>): (d: Dispatch)
    ensures d.Send? <==> modeS.Some? && ModeSPattern(modeS.value)
    ensures modeS.None? || IsBlank(modeS.value) ==> d == Reject(NonEmptyMessage("Mode-S code"))
    ensures modeS.Some? && !IsBlank(modeS.value) && |modeS.value| > 6 ==> d == Reject(TooLongMessage("Mode-S code", 6))
    ensures modeS.Some? && !IsBlank(modeS.value) && |modeS.value| <= 6 && !ModeSPattern(modeS.value) ==>
      d == Reject(ModeSMessage)
    ensures d.Send? ==> RequestUrl(d.endpoint) == BaseUrl + "/mode-s/" + modeS.value
  {
    match ValidateStr(modeS, "Mode-S code", Some(6))
    case Some(err) =>
      if modeS.None? then Reject(err)
      else
        ModeSCodeIsNotBlank(modeS.value);
        Reject(err)
    case None =>
      match CreateModeSCode(modeS.value)
      case Failure(err) => Reject(err)
      case Success(code) =>
        AbsoluteEndpointVerbatim("/mode-s/" + code.value);
        Send(BaseUrl + "/mode-s/" + code.value)
  }

  /** Everything after `_get` in `modeS2nNumber`: the `response` entry is the result when it is
      a string starting with `N`; any other answer, errors included, becomes one message that
      names the input. */
  function FinishModeSToNNumber(modeS: string, fetched: Py<Json>): (r: Py<Reply<string>>)
    ensures fetched.Raises? ==> r == Raises(fetched.exception)
    ensures fetched.Returns? ==> (r.Returns? <==> fetched.value.Object?)
    ensures r.Returns? && r.value.Value? ==>
      && fetched.Returns? && fetched.value.Object? && "response" in fetched.value.fields
      && fetched.value.fields["response"] == Str(r.value.value)
      && StartsWith(r.value.value, "N")
    ensures r.Returns? && r.value.ErrorResponse? ==> r.value.error == Str("Invalid Mode-S " + modeS)
    ensures fetched.Returns? && fetched.value.Object? ==>
      var m := fetched.value.fields;
      r.Returns? && (r.value.Value? <==> "response" in m && m["response"].Str? && StartsWith(m["response"].s, "N"))
  {
    var response :- fetched;
    var nNumber :- PyGet(response, "response", Null);
    if nNumber.Str? && StartsWith(nNumber.s, "N") then Returns(Value(nNumber.s))
    else Returns(ErrorResponse(Str("Invalid Mode-S " + modeS)))
  }

  /** `modeS2nNumber(mode_s)`. */
  function ModeSToNNumber(modeS: Option<string>, net: Network): (r: Py<Reply<string>>)
    ensures modeS.None? || !ModeSPattern(modeS.value) ==>
      r == Returns(ErrorResponse(Str(PlanModeSToNNumber(modeS).message)))
    ensures modeS.Some? && ModeSPattern(modeS.value) ==>
      r == FinishModeSToNNumber(modeS.value, Classify(net(BaseUrl + "/mode-s/" + modeS.value)))
  {
    match PlanModeSToNNumber(modeS)
    case Reject(message) => Returns(ErrorResponse(Str(message)))
    case Send(endpoint) => FinishModeSToNNumber(modeS.value, Get(endpoint, net))
  }

  /** A transport failure is not passed through: the conversion reports its own message. */
  lemma ModeSTransportErrorsReplaced(modeS: string, outcome: Outcome)
    requires IsFailure(outcome) && Classify(outcome).Returns?
    ensures FinishModeSToNNumber(modeS, Classify(outcome)) == Returns(ErrorResponse(Str("Invalid Mode-S " + modeS)))
  {
    FailuresBecomeErrorObjects(outcome);
  }

  // ---------------------------------------------------------------------------------------
  // nNumber2ModeS

  function PlanNNumberToModeS(nNumber: Option<string>): (d: Dispatch)
    ensures d.Send? <==> nNumber.Some? && NNumberPattern(nNumber.value)
    ensures nNumber.None? || IsBlank(nNumber.value) ==> d == Reject(NonEmptyMessage("N-Number"))
    ensures nNumber.Some? && !IsBlank(nNumber.value) && !NNumberPattern(nNumber.value) ==> d == Reject(NNumberMessage)
    ensures d.Send? ==> RequestUrl(d.endpoint) == BaseUrl + "/n-number/" + nNumber.value
  {
    match ValidateStr(nNumber, "N-Number", None)
    case Some(err) =>
      if nNumber.None? then Reject(err)
      else
        NNumberIsNotBlank(nNumber.value);
        Reject(err)
    case None =>
      match CreateNNumber(nNumber.value)
      case Failure(err) => Reject(err)
      case Success(n) =>
        AbsoluteEndpointVerbatim("/n-number/" + n.value);
        Send(BaseUrl + "/n-number/" + n.value)
  }

  /** `nNumber2ModeS(n_number)`: the `_get` result is returned as it is. */
  function NNumberToModeS(nNumber: Option<string>, net: Network): (r: Py<Json>)
    ensures nNumber.None? || !NNumberPattern(nNumber.value) ==>
      r == Returns(ErrorText(PlanNNumberToModeS(nNumber).message))
    ensures nNumber.Some? && NNumberPattern(nNumber.value) ==>
      r == Classify(net(BaseUrl + "/n-number/" + nNumber.value))
  {
    match PlanNNumberToModeS(nNumber)
    case Reject(message) => Returns(ErrorText(message))
    case Send(endpoint) => Get(endpoint, net)
  }

  // ---------------------------------------------------------------------------------------
  // get_online_status

  /** `get_online_status()`: no validation, one GET of the absolute status URL. */
  function GetOnlineStatus(net: Network): (r: Py<Json>)
    ensures r == Classify(net(BaseUrl + "/online"))
  {
    AbsoluteEndpointVerbatim("/online");
    Get(BaseUrl + "/online", net)
  }
}
