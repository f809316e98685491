/**
 * The airline assistant's destination registry and its three local tool
 * handlers: a price lookup, a destination check and a booking confirmation.
 * All three only read the registry.
 */
module Handlers {
  import opened Wrappers
  import opened PyText

  /** Supported destinations, keyed by lower-case city name, with the price of a return ticket. */
  const TicketPrices: map<string, string> :=
    map["london" := "$799", "paris" := "$899", "tokyo" := "$1400", "berlin" := "$499"]

  /** The registry's keys in the order the dictionary lists them. */
  const Destinations: seq<string> := ["london", "paris", "tokyo", "berlin"]

  /** What the price lookup answers for a city the registry does not hold. */
  const UnknownPrice: string := "Unknown"

  const SelectPrefix: string := "please select destination from "

  const TicketCountPrompt: string := "please enter the number of required tickets"

  const CustomerNamePrompt: string := "please enter the name of primary booking holder"

  /** The ordered key list names each registry key exactly once and nothing else. */
  lemma DestinationsAreTheKeys()
    ensures forall k :: k in TicketPrices <==> k in Destinations
    ensures forall i, j :: 0 <= i < j < |Destinations| ==> Destinations[i] != Destinations[j]
  {
    assert Destinations[0] == "london" && Destinations[1] == "paris";
    assert Destinations[2] == "tokyo" && Destinations[3] == "berlin";
  }

  /** The keys are plain lower-case text, printed by `repr` between single quotes. */
  lemma DestinationsArePlain()
    ensures AllPlainText(Destinations)
    ensures forall k :: 0 <= k < |Destinations| ==> HasNoUpper(Destinations[k])
  {
    assert IsPlainText("london") && HasNoUpper("london");
    assert IsPlainText("paris") && HasNoUpper("paris");
    assert IsPlainText("tokyo") && HasNoUpper("tokyo");
    assert IsPlainText("berlin") && HasNoUpper("berlin");
  }

  /** No configured price can be mistaken for the unknown-price sentinel. */
  lemma PricesAreKnown()
    ensures forall k :: k in TicketPrices ==> TicketPrices[k] != UnknownPrice
  {
  }

  /** `get_ticket_price`: the registry price of the lower-cased city, or the unknown-price sentinel. */
  function GetTicketPrice(city: string): (price: string)
    ensures price == UnknownPrice <==> Lower(city) !in TicketPrices
    ensures Lower(city) in TicketPrices ==> price == TicketPrices[Lower(city)]
  {
    PricesAreKnown();
    var key := Lower(city);
    if key in TicketPrices then TicketPrices[key] else UnknownPrice
  }

  /** Every registry city gets its configured price however its letters are cased. */
  lemma PriceIgnoresCase(key: string, city: string)
    requires key in TicketPrices && IsCasingOf(city, key)
    ensures GetTicketPrice(city) == TicketPrices[key]
  {
    DestinationsAreTheKeys();
    DestinationsArePlain();
    LowerOfCasing(city, key);
  }

  /** Two spellings that lower-case alike get the same answer. */
  lemma PriceDependsOnlyOnLowerCase(a: string, b: string)
    requires Lower(a) == Lower(b)
    ensures GetTicketPrice(a) == GetTicketPrice(b)
  {
  }

  /** The message naming every supported destination. */
  function SelectMessage(): string
  {
    SelectPrefix + ListRepr(Destinations)
  }

  /**
   * `get_valid_destination`: nothing for a supported city, otherwise the
   * message listing the supported destinations.
   */
  function GetValidDestination(city: string): (r: Option<string>)
    ensures r == None <==> Lower(city) in TicketPrices
    ensures r != None ==> r == Some(SelectMessage())
  {
    DestinationsAreTheKeys();
    if Lower(city) !in Destinations then Some(SelectMessage()) else None
  }

  /**
   * The rejection message, read back after its prefix, is the list of
   * registry keys: each key exactly once, nothing else.
   */
  lemma RejectionListsDestinations(city: string, m: string)
    requires GetValidDestination(city) == Some(m)
    ensures |SelectPrefix| <= |m| && m[..|SelectPrefix|] == SelectPrefix
    ensures ParseListRepr(m[|SelectPrefix|..]) == Some(Destinations)
  {
    DestinationsArePlain();
    PlainTextIsNotQuoted(Destinations);
    ListReprRoundTrip(Destinations);
    assert m[|SelectPrefix|..] == ListRepr(Destinations);
  }

  /** The rejection message mentions every registry key, in quotes. */
  lemma RejectionMentionsEveryKey(city: string, m: string, key: string)
    requires GetValidDestination(city) == Some(m) && key in TicketPrices
    ensures Occurs(Quote(key), m)
  {
    DestinationsAreTheKeys();
    var k :| 0 <= k < |Destinations| && Destinations[k] == key;
    ListReprMentions(Destinations, k);
    OccursAfter(Quote(key), SelectPrefix, ListRepr(Destinations), 1 + QuotedItemOffset(Destinations, k));
  }

  /** How an f-string prints a value that is a string or `None`. */
  function FormatOptional(v: Option<string>): string
  {
    match v
    case None => "None"
    case Some(s) => s
  }

  /** The booking confirmation text. */
  function Confirmation(ticketCount: int, destination: Option<string>, customerName: string): string
  {
    IntToDecimal(ticketCount) + " tickets for " + FormatOptional(destination) + " booked for " + customerName
  }

  /**
   * A confirmation starts with the ticket count in decimal, which reads back
   * as that count, then names the destination and ends with the customer's
   * name, each verbatim.
   */
  lemma ConfirmationCarriesDetails(ticketCount: int, destination: Option<string>, customerName: string)
    ensures var r := Confirmation(ticketCount, destination, customerName);
      var n := |IntToDecimal(ticketCount)|;
      var d := FormatOptional(destination);
      n + 13 + |d| + 12 + |customerName| == |r| &&
      ParseInt(r[..n]) == Some(ticketCount) &&
      r[n..n + 13] == " tickets for " &&
      r[n + 13..n + 13 + |d|] == d &&
      r[n + 13 + |d|..|r| - |customerName|] == " booked for " &&
      r[|r| - |customerName|..] == customerName
  {
    var digits := IntToDecimal(ticketCount);
    var d := FormatOptional(destination);
    var tail := d + " booked for " + customerName;
    var r := Confirmation(ticketCount, destination, customerName);
    assert r == digits + " tickets for " + tail;
    assert r[..|digits|] == digits;
    assert r[|digits|..|digits| + 13] == " tickets for ";
    assert r[|digits| + 13..] == tail;
    assert tail[..|d|] == d;
    assert tail[|d|..|tail| - |customerName|] == " booked for ";
    assert tail[|tail| - |customerName|..] == customerName;
    IntToDecimalRoundTrip(ticketCount);
  }

  /** A confirmation can never be mistaken for either prompt: it starts with a digit or a minus sign. */
  lemma ConfirmationIsNoPrompt(ticketCount: int, destination: Option<string>, customerName: string)
    ensures Confirmation(ticketCount, destination, customerName) != TicketCountPrompt
    ensures Confirmation(ticketCount, destination, customerName) != CustomerNamePrompt
  {
    var r := Confirmation(ticketCount, destination, customerName);
    var digits := IntToDecimal(ticketCount);
    assert r[0] == digits[0];
    assert digits[0] == '-' || IsDigit(digits[0]);
    assert TicketCountPrompt[0] == 'p' && CustomerNamePrompt[0] == 'p';
  }

  /**
   * `book_flight_tickets`: asks for the ticket count first, then for the
   * customer's name, and confirms once both are present.  Only absence is
   * checked, so any count (zero, negative) and any name (empty) is confirmed.
   */
  function BookFlightTickets(ticketCount: Option<int>, customerName: Option<string>, destination: Option<string>): (r: string)
    ensures r == TicketCountPrompt <==> ticketCount == None
    ensures r == CustomerNamePrompt <==> ticketCount != None && customerName == None
    ensures ticketCount != None && customerName != None ==>
      r == Confirmation(ticketCount.value, destination, customerName.value)
  {
    if ticketCount == None then TicketCountPrompt
    else if customerName == None then CustomerNamePrompt
    else
      ConfirmationIsNoPrompt(ticketCount.value, destination, customerName.value);
      Confirmation(ticketCount.value, destination, customerName.value)
  }
}
