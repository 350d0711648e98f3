/** The `load` subcommand's argument check (src/load.rs): the number of
    machines must parse as a `usize` and must not exceed the configured
    servers. */
module Load {
  import opened Errors
  import Strings

  const PARSE_FAILURE := "parsing # of machines fails"

  /** The refusal when more machines are asked for than there are servers. */
  function TooFewServers(avail: nat): string
  {
    if avail == 1 then "There are only 1 server"
    else "There are only " + Strings.Decimal(avail) + " servers"
  }

  /** `execute`: `serverCount` is the length of the configured server list and
      `machines` the "NUMBER OF MACHINES" argument. */
  function Execute(serverCount: nat, machines: string): (r: Result<()>)
    ensures r.Ok? <==> Strings.ParseUsize(machines).Parsed? && Strings.ParseUsize(machines).value <= serverCount
    ensures Strings.ParseUsize(machines).ParseError? ==>
      r == Err(ThrowWith(PARSE_FAILURE, Strings.ErrorText(Strings.ParseUsize(machines).kind)))
    ensures Strings.ParseUsize(machines).Parsed? && Strings.ParseUsize(machines).value > serverCount ==>
      r == Err(Message(TooFewServers(serverCount)))
  {
    match Strings.ParseUsize(machines)
    case ParseError(kind) => Err(ThrowWith(PARSE_FAILURE, Strings.ErrorText(kind)))
    case Parsed(n) =>
      if n > serverCount then Err(Message(TooFewServers(serverCount)))
      else Ok(())
  }

  /** Every count up to the number of servers, written in decimal, is
      accepted. */
  lemma AcceptsAvailableCounts(serverCount: nat, n: nat)
    requires n <= serverCount && n < Strings.USIZE_LIMIT
    ensures Execute(serverCount, Strings.Decimal(n)) == Ok(())
  {
    Strings.DecimalRoundTrip(n);
  }

  /** Every larger count is refused with the number of servers in the
      message. */
  lemma RefusesLargerCounts(serverCount: nat, n: nat)
    requires serverCount < n < Strings.USIZE_LIMIT
    ensures Execute(serverCount, Strings.Decimal(n)) == Err(Message(TooFewServers(serverCount)))
  {
    Strings.DecimalRoundTrip(n);
  }

  /** An empty argument is a parse failure, not a count of zero. */
  lemma EmptyArgumentIsParseFailure(serverCount: nat)
    ensures Execute(serverCount, "") ==
      Err(Throw(PARSE_FAILURE + ": " + "cannot parse integer from empty string"))
  {
  }

  /** The refusal names the server count: different counts give different
      messages. */
  lemma TooFewServersNamesCount(a: nat, b: nat)
    requires a != b && a < Strings.USIZE_LIMIT && b < Strings.USIZE_LIMIT
    ensures TooFewServers(a) != TooFewServers(b)
  {
    var prefix := "There are only ";
    if a != 1 && b != 1 {
      if TooFewServers(a) == TooFewServers(b) {
        var da, db := Strings.Decimal(a), Strings.Decimal(b);
        assert |da| == |db|;
        assert da == TooFewServers(a)[|prefix|..|prefix| + |da|];
        assert db == TooFewServers(b)[|prefix|..|prefix| + |db|];
        Strings.DecimalRoundTrip(a);
        Strings.DecimalRoundTrip(b);
        assert false;
      }
    } else {
      assert |TooFewServers(a)| != |TooFewServers(b)|;
    }
  }
}
