/** Worked conversations: concrete tool-call sequences and what the dispatcher answers. */
module Scenarios {
  import opened Wrappers
  import opened PyText
  import opened Handlers
  import opened ToolDispatch

  /**
   * An unsupported city is rejected with a message whose list reads back as
   * exactly the four supported destinations, in registry order.
   */
  lemma MadridIsRejected()
    ensures GetValidDestination("Madrid") != None
    ensures var m := GetValidDestination("Madrid").value;
      |SelectPrefix| <= |m| && m[..|SelectPrefix|] == SelectPrefix &&
      ParseListRepr(m[|SelectPrefix|..]) == Some(["london", "paris", "tokyo", "berlin"])
  {
    var key := Lower("Madrid");
    assert key[0] == 'm';
    assert key !in TicketPrices;
    RejectionListsDestinations("Madrid", GetValidDestination("Madrid").value);
  }

  /** "Berlin" is priced as the registry's "berlin". */
  lemma BerlinPrice()
    ensures GetTicketPrice("Berlin") == "$499"
  {
    assert UpperChar('b') == 'B';
    assert IsCasingOf("Berlin", "berlin");
    PriceIgnoresCase("berlin", "Berlin");
  }

  /** "TO\U{212A}YO", spelt with the Kelvin sign, is Tokyo, as Python's `lower()` reads it. */
  lemma KelvinSignSpellsTokyo()
    ensures GetTicketPrice("TO\U{212A}YO") == "$1400"
    ensures GetValidDestination("TO\U{212A}YO") == None
  {
    var city := "TO\U{212A}YO";
    assert IsUpperSpelling(city[0], 't') && IsUpperSpelling(city[1], 'o') && IsUpperSpelling(city[2], 'k');
    assert IsUpperSpelling(city[3], 'y') && IsUpperSpelling(city[4], 'o');
    assert IsCasingOf(city, "tokyo");
    assert HasNoUpper("tokyo");
    LowerOfCasing(city, "tokyo");
    PriceIgnoresCase("tokyo", city);
  }

  /** Three tickets for Sam to Berlin, as the confirmation words it. */
  lemma ThreeTicketsForSam()
    ensures Confirmation(3, Some("Berlin"), "Sam") == "3 tickets for Berlin booked for Sam"
  {
    assert IntToDecimal(3) == "3";
    assert FormatOptional(Some("Berlin")) == "Berlin";
    assert "3" + " tickets for " == "3 tickets for ";
    assert "3 tickets for " + "Berlin" == "3 tickets for Berlin";
    assert "3 tickets for Berlin" + " booked for " == "3 tickets for Berlin booked for ";
    assert "3 tickets for Berlin booked for " + "Sam" == "3 tickets for Berlin booked for Sam";
  }

  /**
   * A price lookup for "Berlin" followed by a booking that names no city:
   * the lookup quotes $499 and the booking is made for Berlin.
   */
  lemma PriceThenBooking(session: Option<string>, lookup: ToolCall, booking: ToolCall)
    requires lookup == ToolCall("call-1", PriceToolName, Arguments(Some("Berlin"), None, None))
    requires booking == ToolCall("call-2", BookingToolName, Arguments(None, Some(3), Some("Sam")))
    ensures RunCalls(session, [lookup, booking]) == Run(Some("Berlin"), [
        ToolMessage(PriceQuote("Berlin", "$499"), "call-1"),
        ToolMessage(Text("3 tickets for Berlin booked for Sam"), "call-2")], false)
  {
    ToolNameRoundTrip(PriceLookup);
    ToolNameRoundTrip(Booking);
    BerlinPrice();
    PriceLookupQuotes(session, lookup, "Berlin");
    var quote := ToolMessage(PriceQuote("Berlin", "$499"), "call-1");
    RunCallsLast(session, [], lookup);
    assert [] + [lookup] == [lookup];
    assert RunCalls(session, [lookup]) == Run(Some("Berlin"), [quote], false);
    ThreeTicketsForSam();
    BookingFallsBack(Some("Berlin"), booking);
    RunCallsLast(session, [lookup], booking);
    assert [lookup] + [booking] == [lookup, booking];
  }
}
