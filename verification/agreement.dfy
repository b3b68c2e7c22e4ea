/** How the two clients relate: the same validation languages and URLs, the same forwarded
    answers for the operations neither of them reshapes, and one visible difference in the
    Mode-S messages. */
module ClientAgreement {

  import opened Wrappers
  import opened Text
  import opened Json
  import opened Identifiers
  import opened Transport
  import Typed = TypedClient
  import Packaged = PackagedClient

  lemma TooLongMessageForThree()
    ensures Typed.TooLongMessage("Airline code", 3) == Packaged.AirlineTooLongMessage
  {
    IntTextOfDigit(3);
    assert IntText(3) == "3";
    assert Typed.TooLongMessage("Airline code", 3) == "Airline code" + " must be at most " + "3" + " characters long.";
  }

  lemma IdentifierEmptyMessageAgrees()
    ensures Typed.NonEmptyMessage("Identifier") == Packaged.IdentifierEmptyMessage
  {
  }

  lemma CallsignEmptyMessageAgrees()
    ensures Typed.NonEmptyMessage("Callsign") == Packaged.CallsignEmptyMessage
  {
  }

  lemma AirlineEmptyMessageAgrees()
    ensures Typed.NonEmptyMessage("Airline code") == Packaged.AirlineEmptyMessage
  {
  }

  lemma ModeSEmptyMessageAgrees()
    ensures Typed.NonEmptyMessage("Mode-S code") == Packaged.ModeSEmptyMessage
  {
  }

  lemma NNumberEmptyMessageAgrees()
    ensures Typed.NonEmptyMessage("N-Number") == Packaged.NNumberEmptyMessage
  {
  }

  /** Both clients word the non-empty refusal of each argument identically. */
  lemma NonEmptyMessagesAgree()
    ensures Typed.NonEmptyMessage("Identifier") == Packaged.IdentifierEmptyMessage
    ensures Typed.NonEmptyMessage("Callsign") == Packaged.CallsignEmptyMessage
    ensures Typed.NonEmptyMessage("Airline code") == Packaged.AirlineEmptyMessage
    ensures Typed.NonEmptyMessage("Mode-S code") == Packaged.ModeSEmptyMessage
    ensures Typed.NonEmptyMessage("N-Number") == Packaged.NNumberEmptyMessage
  {
    IdentifierEmptyMessageAgrees();
    CallsignEmptyMessageAgrees();
    AirlineEmptyMessageAgrees();
    ModeSEmptyMessageAgrees();
    NNumberEmptyMessageAgrees();
  }

  /** Aircraft, flight-route, airline and N-Number inputs are planned identically by both
      clients: same refusals with the same messages, same endpoints. */
  lemma PlansAgree(x: Option<string>)
    ensures Typed.PlanAircraft(x) == Packaged.PlanAircraft(x)
    ensures Typed.PlanFlightRoute(x) == Packaged.PlanFlightRoute(x)
    ensures Typed.PlanAirline(x) == Packaged.PlanAirline(x)
    ensures Typed.PlanNNumberToModeS(x) == Packaged.PlanNNumberToModeS(x)
  {
    NonEmptyMessagesAgree();
    TooLongMessageForThree();
  }

  /** The Mode-S plans accept the same codes and send them to the same URL; they word a refusal
      differently exactly when the input is non-blank and longer than six characters, where
      the typed client reports the length and the packaged one the grammar. */
  lemma ModeSPlansDifferOnlyInLengthMessage(x: Option<string>)
    ensures Typed.PlanModeSToNNumber(x).Send? <==> Packaged.PlanModeSToNNumber(x).Send?
    ensures Typed.PlanModeSToNNumber(x) != Packaged.PlanModeSToNNumber(x) <==>
      (x.Some? && !IsBlank(x.value) && |x.value| > 6)
  {
    NonEmptyMessagesAgree();
    if x.Some? && !IsBlank(x.value) && |x.value| > 6 {
      IntTextOfDigit(6);
      assert IntText(6) == "6";
      assert Typed.TooLongMessage("Mode-S code", 6)[20] == 'a';
      assert ModeSMessage[20] == 'e';
    }
  }

  /** The operations the typed client does not reshape return exactly what the packaged client
      returns, for every input and every network. */
  lemma ForwardingOperationsCoincide(x: Option<string>, net: Network)
    ensures Typed.GetFlightRoute(x, net) == Packaged.GetFlightRoute(x, net)
    ensures Typed.NNumberToModeS(x, net) == Packaged.NNumberToModeS(x, net)
    ensures Typed.GetOnlineStatus(net) == Packaged.GetOnlineStatus(net)
  {
    PlansAgree(x);
  }

  /** An error value the packaged client forwards for an aircraft or airline lookup is what the
      typed client reports too. */
  lemma ErrorsReportedAlike(x: Option<string>, net: Network)
    ensures var raw := Packaged.GetAircraftData(x, net);
      raw.Returns? && raw.value.Object? && "error" in raw.value.fields ==>
        Typed.GetAircraftData(x, net) == Returns(Typed.ErrorResponse(raw.value.fields["error"]))
    ensures var raw := Packaged.GetAirline(x, net);
      raw.Returns? && raw.value.Object? && "error" in raw.value.fields ==>
        Typed.GetAirline(x, net) == Returns(Typed.ErrorResponse(raw.value.fields["error"]))
  {
    PlansAgree(x);
    TooLongMessageForThree();
  }
}
