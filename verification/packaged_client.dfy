/** The client of `src/pyadsbdb/client.py`, the one the package installs. Every operation
    validates its argument inline and then returns the `_get` result unchanged: nothing is
    mapped. */
module PackagedClient {

  import opened Wrappers
  import opened Text
  import opened Json
  import opened Identifiers
  import opened Transport

  const IdentifierEmptyMessage := "Identifier must be a non-empty string."
  const CallsignEmptyMessage := "Callsign must be a non-empty string."
  const AirlineEmptyMessage := "Airline code must be a non-empty string."
  const AirlineTooLongMessage := "Airline code must be at most 3 characters long."
  const ModeSEmptyMessage := "Mode-S code must be a non-empty string."
  const NNumberEmptyMessage := "N-Number must be a non-empty string."

  /** `not isinstance(value, str) or not value.strip()`. */
  predicate IsMissingOrBlank(value: Option<string>) {
    value.None? || IsBlank(value.value)
  }

  /** Stage two of every operation: a refusal becomes the error value, a request is sent. */
  function Perform(d: Dispatch, net: Network): (r: Py<Json>)
    ensures d.Reject? ==> r == Returns(ErrorText(d.message))
    ensures d.Send? ==> r == Classify(net(RequestUrl(d.endpoint)))
  {
    match d
    case Reject(message) => Returns(ErrorText(message))
    case Send(endpoint) => Get(endpoint, net)
  }

  // ---------------------------------------------------------------------------------------
  // get_aircraft_data

  function PlanAircraft(identifier: Option<string>): (d: Dispatch)
    ensures d.Reject? <==> IsMissingOrBlank(identifier)
    ensures d.Reject? ==> d.message == IdentifierEmptyMessage
    ensures d.Send? ==> RequestUrl(d.endpoint) == BaseUrl + "/aircraft/" + identifier.value
  {
    if IsMissingOrBlank(identifier) then Reject(IdentifierEmptyMessage)
    else
      RelativeEndpointJoined("aircraft", identifier.value);
      assert BaseUrl + "/" + "aircraft" + "/" + identifier.value == BaseUrl + "/aircraft/" + identifier.value;
      Send("aircraft/" + identifier.value)
  }

  function GetAircraftData(identifier: Option<string>, net: Network): (r: Py<Json>)
    ensures IsMissingOrBlank(identifier) ==> r == Returns(ErrorText(IdentifierEmptyMessage))
    ensures !IsMissingOrBlank(identifier) ==> r == Classify(net(BaseUrl + "/aircraft/" + identifier.value))
  {
    Perform(PlanAircraft(identifier), net)
  }

  // ---------------------------------------------------------------------------------------
  // get_flight_route

  function PlanFlightRoute(callsign: Option<string>): (d: Dispatch)
    ensures d.Reject? <==> IsMissingOrBlank(callsign)
    ensures d.Reject? ==> d.message == CallsignEmptyMessage
    ensures d.Send? ==> RequestUrl(d.endpoint) == BaseUrl + "/callsign/" + callsign.value
  {
    if IsMissingOrBlank(callsign) then Reject(CallsignEmptyMessage)
    else
      RelativeEndpointJoined("callsign", callsign.value);
      assert BaseUrl + "/" + "callsign" + "/" + callsign.value == BaseUrl + "/callsign/" + callsign.value;
      Send("callsign/" + callsign.value)
  }

  function GetFlightRoute(callsign: Option<string>, net: Network): (r: Py<Json>)
    ensures IsMissingOrBlank(callsign) ==> r == Returns(ErrorText(CallsignEmptyMessage))
    ensures !IsMissingOrBlank(callsign) ==> r == Classify(net(BaseUrl + "/callsign/" + callsign.value))
  {
    Perform(PlanFlightRoute(callsign), net)
  }

  // ---------------------------------------------------------------------------------------
  // get_airline

  /** Emptiness is checked before length; the length is that of the unstripped string. */
  function PlanAirline(code: Option<string>): (d: Dispatch)
    ensures d.Send? <==> !IsMissingOrBlank(code) && |code.value| <= 3
    ensures IsMissingOrBlank(code) ==> d == Reject(AirlineEmptyMessage)
    ensures !IsMissingOrBlank(code) && |code.value| > 3 ==> d == Reject(AirlineTooLongMessage)
    ensures d.Send? ==> RequestUrl(d.endpoint) == BaseUrl + "/airline/" + code.value
  {
    if IsMissingOrBlank(code) then Reject(AirlineEmptyMessage)
    else if |code.value| > 3 then Reject(AirlineTooLongMessage)
    else
      RelativeEndpointJoined("airline", code.value);
      assert BaseUrl + "/" + "airline" + "/" + code.value == BaseUrl + "/airline/" + code.value;
      Send("airline/" + code.value)
  }

  /** `get_airline(airline_code)`: the raw answer is forwarded, not mapped. */
  function GetAirline(code: Option<string>, net: Network): (r: Py<Json>)
    ensures IsMissingOrBlank(code) ==> r == Returns(ErrorText(AirlineEmptyMessage))
    ensures !IsMissingOrBlank(code) && |code.value| > 3 ==> r == Returns(ErrorText(AirlineTooLongMessage))
    ensures !IsMissingOrBlank(code) && |code.value| <= 3 ==> r == Classify(net(BaseUrl + "/airline/" + code.value))
  {
    Perform(PlanAirline(code), net)
  }

  // ---------------------------------------------------------------------------------------
  // mode_s_to_n_number

  function PlanModeSToNNumber(modeS: Option<string>): (d: Dispatch)
    ensures d.Send? <==> modeS.Some? && ModeSPattern(modeS.value)
    ensures IsMissingOrBlank(modeS) ==> d == Reject(ModeSEmptyMessage)
    ensures !IsMissingOrBlank(modeS) && !ModeSPattern(modeS.value) ==> d == Reject(ModeSMessage)
    ensures d.Send? ==> RequestUrl(d.endpoint) == BaseUrl + "/mode-s/" + modeS.value
  {
    if IsMissingOrBlank(modeS) then
      if modeS.None? then Reject(ModeSEmptyMessage)
      else
        ModeSCodeIsNotBlank(modeS.value);
        Reject(ModeSEmptyMessage)
    else if !IsModeSCode(modeS.value) then
      IsModeSCodeMatchesPattern(modeS.value);
      Reject(ModeSMessage)
    else
      IsModeSCodeMatchesPattern(modeS.value);
      AbsoluteEndpointVerbatim("/mode-s/" + modeS.value);
      Send(BaseUrl + "/mode-s/" + modeS.value)
  }

  function ModeSToNNumber(modeS: Option<string>, net: Network): (r: Py<Json>)
    ensures IsMissingOrBlank(modeS) ==> r == Returns(ErrorText(ModeSEmptyMessage))
    ensures !IsMissingOrBlank(modeS) && !ModeSPattern(modeS.value) ==> r == Returns(ErrorText(ModeSMessage))
    ensures modeS.Some? && ModeSPattern(modeS.value) ==> r == Classify(net(BaseUrl + "/mode-s/" + modeS.value))
  {
    Perform(PlanModeSToNNumber(modeS), net)
  }

  // ---------------------------------------------------------------------------------------
  // n_number_to_mode_s

  /** The pattern here is written `[N][1-9][0-9]{0,4}[A-HJ-NP-Z]{0,2}` without anchors; under
      `fullmatch` it is the same language as the anchored N-Number pattern of `types.py`. */
  function PlanNNumberToModeS(nNumber: Option<string>): (d: Dispatch)
    ensures d.Send? <==> nNumber.Some? && NNumberPattern(nNumber.value)
    ensures IsMissingOrBlank(nNumber) ==> d == Reject(NNumberEmptyMessage)
    ensures !IsMissingOrBlank(nNumber) && !NNumberPattern(nNumber.value) ==> d == Reject(NNumberMessage)
    ensures d.Send? ==> RequestUrl(d.endpoint) == BaseUrl + "/n-number/" + nNumber.value
  {
    if IsMissingOrBlank(nNumber) then
      if nNumber.None? then Reject(NNumberEmptyMessage)
      else
        NNumberIsNotBlank(nNumber.value);
        Reject(NNumberEmptyMessage)
    else if !IsNNumber(nNumber.value) then
      IsNNumberMatchesPattern(nNumber.value);
      Reject(NNumberMessage)
    else
      IsNNumberMatchesPattern(nNumber.value);
      AbsoluteEndpointVerbatim("/n-number/" + nNumber.value);
      Send(BaseUrl + "/n-number/" + nNumber.value)
  }

  function NNumberToModeS(nNumber: Option<string>, net: Network): (r: Py<Json>)
    ensures IsMissingOrBlank(nNumber) ==> r == Returns(ErrorText(NNumberEmptyMessage))
    ensures !IsMissingOrBlank(nNumber) && !NNumberPattern(nNumber.value) ==> r == Returns(ErrorText(NNumberMessage))
    ensures nNumber.Some? && NNumberPattern(nNumber.value) ==> r == Classify(net(BaseUrl + "/n-number/" + nNumber.value))
  {
    Perform(PlanNNumberToModeS(nNumber), net)
  }

  // ---------------------------------------------------------------------------------------
  // get_online_status

  function GetOnlineStatus(net: Network): (r: Py<Json>)
    ensures r == Classify(net(BaseUrl + "/online"))
  {
    AbsoluteEndpointVerbatim("/online");
    Get(BaseUrl + "/online", net)
  }
}
