/** Concrete situations stated as lemmas against the model: the cases of tests/test_client.py,
    and further sample inputs for the N-Number pattern, the 404 branch of `_get` and
    connection failures. The network is a constant: every URL ends in the same outcome. */
module Scenarios {

  import opened Wrappers
  import opened Text
  import opened Json
  import opened Identifiers
  import opened Records
  import opened Transport
  import Typed = TypedClient
  import Packaged = PackagedClient
  import ClientAgreement

  function Always(outcome: Outcome): Network {
    (url: string) => outcome
  }

  /** An HTTP 200 answer carrying a JSON body. */
  function Ok(body: Json): Outcome {
    Answered(200, Decoded(body), "")
  }

  function ResponseBody(value: Json): Json {
    Object(map["response" := value])
  }

  lemma NotBlank(s: string)
    requires |s| > 0 && !IsPythonSpace(s[0])
    ensures !IsBlank(s)
  {
  }

  lemma SampleModeS()
    ensures ModeSPattern("A1B2C3") && !IsBlank("A1B2C3")
  {
    var s := "A1B2C3";
    assert s[0] == 'A' && s[1] == '1' && s[2] == 'B' && s[3] == '2' && s[4] == 'C' && s[5] == '3';
  }

  lemma SampleNNumber()
    ensures NNumberPattern("N12345") && !IsBlank("N12345")
  {
    assert SplitsAsNNumber("N12345", 6);
  }

  // Forwarded bodies of the packaged client, one lemma per case of tests/test_client.py.

  lemma PackagedForwardsAircraft(body: Json)
    ensures Packaged.GetAircraftData(Some("A1B2C3"), Always(Ok(body))) == Returns(body)
  {
    SampleModeS();
  }

  lemma PackagedForwardsFlightRoute(body: Json)
    ensures Packaged.GetFlightRoute(Some("BA123"), Always(Ok(body))) == Returns(body)
  {
    NotBlank("BA123");
  }

  lemma PackagedForwardsModeSConversion(body: Json)
    ensures Packaged.ModeSToNNumber(Some("A1B2C3"), Always(Ok(body))) == Returns(body)
  {
    SampleModeS();
  }

  lemma PackagedForwardsNNumberConversion(body: Json)
    ensures Packaged.NNumberToModeS(Some("N12345"), Always(Ok(body))) == Returns(body)
  {
    SampleNNumber();
  }

  lemma PackagedForwardsOnlineStatus(body: Json)
    ensures Packaged.GetOnlineStatus(Always(Ok(body))) == Returns(body)
  {
  }

  /** The airline answer of the test-suite: the packaged client forwards it untouched, the typed
      client maps element 0 and fills the two absent keys with the string "None" while the
      explicit null stays null. */
  lemma AirlineAnswer()
    ensures var entry := Object(map["name" := Str("Test Airline"), "icao" := Str("TST"), "iata" := Null, "country" := Str("Testland")]);
      var body := ResponseBody(Array([entry]));
      && Packaged.GetAirline(Some("TST"), Always(Ok(body))) == Returns(body)
      && Typed.GetAirline(Some("TST"), Always(Ok(body))) == Returns(Typed.Value(
           Airline(Str("Test Airline"), Str("TST"), Null, Str("Testland"), Str("None"), Str("None"))))
  {
    NotBlank("TST");
  }

  /** Refusals before any request (tests/test_client.py): whatever the network would answer. */
  lemma PackagedRefusals(net: Network)
    ensures Packaged.GetAirline(Some("TEST"), net) == Returns(ErrorText("Airline code must be at most 3 characters long."))
    ensures Packaged.ModeSToNNumber(Some("12345G"), net) == Returns(ErrorText(ModeSMessage))
    ensures Packaged.NNumberToModeS(Some("01234Z"), net) == Returns(ErrorText(NNumberMessage))
  {
    NotBlank("TEST");
    NotBlank("12345G");
    NotBlank("01234Z");
    assert !IsHexDigit("12345G"[5]);
  }

  /** The typed client refuses the same inputs with the same messages. */
  lemma TypedRefusals(net: Network)
    ensures Typed.GetAirline(Some("TEST"), net) == Returns(Typed.ErrorResponse(Str("Airline code must be at most 3 characters long.")))
    ensures Typed.ModeSToNNumber(Some("12345G"), net) == Returns(Typed.ErrorResponse(Str(ModeSMessage)))
    ensures Typed.NNumberToModeS(Some("01234Z"), net) == Returns(ErrorText(NNumberMessage))
  {
    NotBlank("TEST");
    NotBlank("12345G");
    NotBlank("01234Z");
    assert !IsHexDigit("12345G"[5]);
    ClientAgreement.TooLongMessageForThree();
  }

  /** Rejected N-Number spellings: a leading zero, a lower-case leader, a zero after `N`, and
      the letters I and O. */
  lemma RejectedNNumbers()
    ensures CreateNNumber("01234Z") == Failure(NNumberMessage)
    ensures CreateNNumber("n123") == Failure(NNumberMessage)
    ensures CreateNNumber("N0123") == Failure(NNumberMessage)
    ensures CreateNNumber("N12I") == Failure(NNumberMessage)
    ensures CreateNNumber("N12AO") == Failure(NNumberMessage)
  {
    assert "N12I"[3] == 'I';
    assert "N12AO"[4] == 'O';
  }

  /** A 404 whose JSON body names the problem becomes an error value with that message, in both
      clients. */
  lemma NotFoundCarriesServiceMessage()
    ensures var outcome := Answered(404, Decoded(ResponseBody(Str("aircraft not found"))), "404 Client Error");
      && Packaged.GetAircraftData(Some("ZZZZZZ"), Always(outcome)) == Returns(ErrorText("aircraft not found"))
      && Typed.GetAircraftData(Some("ZZZZZZ"), Always(outcome)) == Returns(Typed.ErrorResponse(Str("aircraft not found")))
  {
    NotBlank("ZZZZZZ");
  }

  /** A 200 answer that happens to carry an `error` key is reported by the typed client as an
      error, exactly like a transport failure. */
  lemma TypedTreatsErrorKeyAsFailure(message: Json)
    ensures Typed.GetAircraftData(Some("A1B2C3"), Always(Ok(Object(map["error" := message]))))
      == Returns(Typed.ErrorResponse(message))
  {
    SampleModeS();
  }

  /** A 200 answer without an `aircraft` key maps the empty dictionary, which lacks every
      constructor parameter. */
  lemma TypedMissingAircraftFailsToParse()
    ensures var r := Typed.GetAircraftData(Some("A1B2C3"), Always(Ok(Object(map[]))));
      r.Returns? && r.value.ErrorResponse? && r.value.error.Str?
      && StartsWith(r.value.error.s, Typed.AircraftParsePrefix)
  {
    SampleModeS();
  }

  /** A connection failure reaches the caller as the connection error value from every packaged
      operation, for every input that gets past that operation's validation. */
  lemma ConnectionFailureForwarded(x: Option<string>)
    ensures var net := Always(ConnectionFailed);
      var expected := Returns(ErrorText(ConnectionMessage));
      && (!Packaged.IsMissingOrBlank(x) ==> Packaged.GetAircraftData(x, net) == expected)
      && (!Packaged.IsMissingOrBlank(x) ==> Packaged.GetFlightRoute(x, net) == expected)
      && (!Packaged.IsMissingOrBlank(x) && |x.value| <= 3 ==> Packaged.GetAirline(x, net) == expected)
      && (x.Some? && ModeSPattern(x.value) ==> Packaged.ModeSToNNumber(x, net) == expected)
      && (x.Some? && NNumberPattern(x.value) ==> Packaged.NNumberToModeS(x, net) == expected)
      && Packaged.GetOnlineStatus(net) == expected
  {
  }

  /** The typed Mode-S conversion does not pass a connection failure on: it reports the input
      as an invalid Mode-S code. */
  lemma TypedModeSHidesConnectionFailure()
    ensures Typed.ModeSToNNumber(Some("A1B2C3"), Always(ConnectionFailed))
      == Returns(Typed.ErrorResponse(Str("Invalid Mode-S A1B2C3")))
  {
    SampleModeS();
    assert "Invalid Mode-S " + "A1B2C3" == "Invalid Mode-S A1B2C3";
  }
}
