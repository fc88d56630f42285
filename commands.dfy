/**
 * The power operations on one handler, as both command-line tools perform
 * them: `on`, `off`, and `reboot` = off, a one-second wait, on, stopping at
 * the first failing call.
 */
module Commands {
  import opened Tapo

  /** What a reboot of `h` does against the devices in `stub`. */
  function RebootSpec(stub: Stub, h: Handler): Run<()>
  {
    Then(CallSpec(stub, Off(h)), Then(Run([Wait], Ok(())), CallSpec(stub, On(h))))
  }

  /**
   * A reboot sends off, then waits, then sends on, all to the same handler;
   * when off fails, nothing follows it, and the off failure is what is reported.
   */
  lemma RebootSequence(stub: Stub, h: Handler)
    ensures RebootSpec(stub, h).events ==
              if Off(h) in stub.failing then [Off(h)] else [Off(h), Wait, On(h)]
    ensures Off(h) in stub.failing ==> On(h) !in RebootSpec(stub, h).events
    ensures Off(h) in stub.failing ==> RebootSpec(stub, h).result == Err(CallFailed(Off(h)))
    ensures RebootSpec(stub, h).result.Ok? <==> Off(h) !in stub.failing && On(h) !in stub.failing
    ensures PowerCommands(RebootSpec(stub, h).events) ==
              if Off(h) in stub.failing then [Off(h)] else [Off(h), On(h)]
  {
    if Off(h) !in stub.failing {
      calc {
        PowerCommands([Off(h), Wait, On(h)]);
        [Off(h)] + PowerCommands([Wait, On(h)]);
        { assert [Wait, On(h)][1..] == [On(h)]; }
        [Off(h)] + PowerCommands([On(h)]);
      }
    }
  }

  method TurnOn(t: Transport, h: Handler) returns (r: Result<()>)
    modifies t
    ensures t.trace == old(t.trace) + CallSpec(t.stub, On(h)).events
    ensures r == CallSpec(t.stub, On(h)).result
  {
    var ok := t.Call(On(h));
    r := if ok then Ok(()) else Err(CallFailed(On(h)));
  }

  method TurnOff(t: Transport, h: Handler) returns (r: Result<()>)
    modifies t
    ensures t.trace == old(t.trace) + CallSpec(t.stub, Off(h)).events
    ensures r == CallSpec(t.stub, Off(h)).result
  {
    var ok := t.Call(Off(h));
    r := if ok then Ok(()) else Err(CallFailed(Off(h)));
  }

  method Reboot(t: Transport, h: Handler) returns (r: Result<()>)
    modifies t
    ensures t.trace == old(t.trace) + RebootSpec(t.stub, h).events
    ensures r == RebootSpec(t.stub, h).result
  {
    r := TurnOff(t, h);
    if r.Err? {
      return;
    }
    t.Sleep();
    r := TurnOn(t, h);
  }
}
