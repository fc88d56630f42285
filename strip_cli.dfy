/**
 * The P306 power-strip tool: `tapo_306_strip [command] nickname`. It reports
 * every outlet for "info"; for any other command it acts on the first outlet
 * whose nickname matches and stops. An unmatched nickname does nothing and
 * still succeeds.
 */
module StripCli {
  import opened Tapo
  import opened Commands

  datatype Args = Args(command: string, nickname: string)

  /**
   * `parse_args` on the full argument vector (program name first): two or
   * three entries are accepted; any other count is the exit(1) failure.
   */
  function ParseArgs(args: seq<string>): Result<Args>
  {
    if |args| < 2 || |args| > 3 then Err(BadArity)
    else if |args| == 3 then Ok(Args(args[1], args[2]))
    else Ok(Args("", args[1]))
  }

  /** The argument vector a user types for `a` (the command word left out when it is empty). */
  function CommandLine(program: string, a: Args): seq<string>
  {
    if a.command == "" then [program, a.nickname] else [program, a.command, a.nickname]
  }

  /**
   * The arity rule: fewer than two or more than three entries fail; three give
   * command and nickname; two give the empty command and the nickname.
   */
  lemma ParseArgsArity(args: seq<string>)
    ensures ParseArgs(args).Err? <==> |args| < 2 || |args| > 3
    ensures ParseArgs(args).Err? ==> ParseArgs(args).error == BadArity
    ensures |args| == 3 ==> ParseArgs(args) == Ok(Args(args[1], args[2]))
    ensures |args| == 2 ==> ParseArgs(args) == Ok(Args("", args[1]))
  {
  }

  /** Parsing what the user typed gives back the command and the nickname. */
  lemma ParseCommandLine(program: string, a: Args)
    ensures ParseArgs(CommandLine(program, a)) == Ok(a)
  {
  }

  /** What the command does to the selected outlet; an unknown command is the panic. */
  function ActSpec(stub: Stub, command: string, h: Handler): Run<()>
  {
    if command == "on" then CallSpec(stub, On(h))
    else if command == "off" then CallSpec(stub, Off(h))
    else if command == "reboot" then RebootSpec(stub, h)
    else Run([], Err(InvalidCommand(command)))
  }

  /**
   * The `for child in child_device_list` loop: "info" reports every child;
   * otherwise the first child whose nickname matches is selected and acted on,
   * and the loop stops.
   */
  function ScanSpec(stub: Stub, a: Args): Run<()>
  {
    if a.command == "info" then Run(Reports(stub.children), Ok(()))
    else match FirstMatch(stub.children, a.nickname)
      case None => Run([], Ok(()))
      case Some(i) =>
        var id := stub.children[i].deviceId;
        Then(CallSpec(stub, Select(id)), ActSpec(stub, a.command, Outlet(id)))
  }

  /** The run after the arguments are parsed: connect, read the strip's info, list, then scan. */
  function StripSpec(stub: Stub, a: Args): Run<()>
  {
    var connect := Connect(StripDevice);
    var info := GetInfo(StripDevice);
    if connect in stub.failing then Run([connect], Err(CallFailed(connect)))
    else if info in stub.failing then Run([connect, info], Err(CallFailed(info)))
    else if ListChildren in stub.failing then Run([connect, info, ListChildren], Err(CallFailed(ListChildren)))
    else
      var scan := ScanSpec(stub, a);
      Run([connect, info, ListChildren] + scan.events, scan.result)
  }

  /** The whole tool: `main` from the argument vector. */
  function CliSpec(stub: Stub, args: seq<string>): Run<()>
  {
    var parsed := ParseArgs(args);
    if parsed.Err? then Run([], Err(parsed.error)) else StripSpec(stub, parsed.value)
  }

  // ---------------------------------------------------------------------------
  // The operations, sending their calls through the transport

  method Act(t: Transport, command: string, h: Handler) returns (r: Result<()>)
    modifies t
    ensures t.trace == old(t.trace) + ActSpec(t.stub, command, h).events
    ensures r == ActSpec(t.stub, command, h).result
  {
    if command == "on" {
      r := TurnOn(t, h);
    } else if command == "off" {
      r := TurnOff(t, h);
    } else if command == "reboot" {
      r := Reboot(t, h);
    } else {
      r := Err(InvalidCommand(command));
    }
  }

  method RunStripCli(t: Transport, args: seq<string>) returns (r: Result<()>)
    modifies t
    ensures t.trace == old(t.trace) + CliSpec(t.stub, args).events
    ensures r == CliSpec(t.stub, args).result
  {
    var parsed := ParseArgs(args);
    if parsed.Err? {
      return Err(parsed.error);
    }
    var a := parsed.value;
    var ok := t.Call(Connect(StripDevice));
    if !ok {
      return Err(CallFailed(Connect(StripDevice)));
    }
    ok := t.Call(GetInfo(StripDevice));
    if !ok {
      return Err(CallFailed(GetInfo(StripDevice)));
    }
    var listing := t.GetChildDeviceList();
    if listing.Err? {
      return Err(listing.error);
    }
    r := Scan(t, a, listing.value);
  }

  method Scan(t: Transport, a: Args, children: seq<Child>) returns (r: Result<()>)
    requires children == t.stub.children
    modifies t
    ensures t.trace == old(t.trace) + ScanSpec(t.stub, a).events
    ensures r == ScanSpec(t.stub, a).result
  {
    r := Ok(());
    var i := 0;
    while i < |children|
      invariant 0 <= i <= |children|
      invariant t.trace == old(t.trace) + if a.command == "info" then Reports(children[..i]) else []
      invariant a.command != "info" ==> forall j :: 0 <= j < i ==> children[j].nickname != a.nickname
    {
      var child := children[i];
      if a.command == "info" {
        t.Report(child);
        assert Reports(children[..i + 1]) == Reports(children[..i]) + [Reported(child)];
      } else if child.nickname == a.nickname {
        FirstMatchIsUnique(children, a.nickname, i);
        var ok := t.Call(Select(child.deviceId));
        if !ok {
          return Err(CallFailed(Select(child.deviceId)));
        }
        r := Act(t, a.command, Outlet(child.deviceId));
        if r.Err? {
          return;
        }
        break;
      }
      i := i + 1;
    }
    assert i == |children| ==> children[..i] == children;
  }

  // ---------------------------------------------------------------------------
  // Properties

  /** With "info" every child is reported, in order, no outlet is selected and no power command is sent. */
  lemma InfoReportsEveryChild(stub: Stub, args: seq<string>)
    requires ParseArgs(args).Ok? && ParseArgs(args).value.command == "info"
    requires Connect(StripDevice) !in stub.failing && GetInfo(StripDevice) !in stub.failing
    requires ListChildren !in stub.failing
    ensures CliSpec(stub, args) ==
              Run([Connect(StripDevice), GetInfo(StripDevice), ListChildren] + Reports(stub.children), Ok(()))
    ensures PowerCommands(CliSpec(stub, args).events) == []
  {
    var listed := [Connect(StripDevice), GetInfo(StripDevice), ListChildren];
    NoPowerCommands(listed);
    ReportsHaveNoPowerCommands(stub.children);
    PowerCommandsAppend(listed, Reports(stub.children));
  }

  /**
   * For another command, only the first child whose nickname matches is
   * addressed: every outlet selected or commanded is that child's.
   */
  lemma OnlyFirstMatchIsAddressed(stub: Stub, args: seq<string>, i: nat)
    requires ParseArgs(args).Ok? && ParseArgs(args).value.command != "info"
    requires FirstMatch(stub.children, ParseArgs(args).value.nickname) == Some(i)
    ensures forall e :: e in CliSpec(stub, args).events ==>
              (e.Select? ==> e.deviceId == stub.children[i].deviceId) &&
              (IsPowerCommand(e) ==> e.target == Outlet(stub.children[i].deviceId))
  {
  }

  /**
   * "on" or "off" with a matching child: the outlet of the first match is
   * selected and receives exactly that one power command, whose outcome is
   * the outcome of the run.
   */
  lemma PowerCommandReachesMatchedOutlet(stub: Stub, args: seq<string>, i: nat)
    requires ParseArgs(args).Ok? && ParseArgs(args).value.command in {"on", "off"}
    requires FirstMatch(stub.children, ParseArgs(args).value.nickname) == Some(i)
    requires Connect(StripDevice) !in stub.failing && GetInfo(StripDevice) !in stub.failing
    requires ListChildren !in stub.failing && Select(stub.children[i].deviceId) !in stub.failing
    ensures var id := stub.children[i].deviceId;
            var cmd := if ParseArgs(args).value.command == "on" then On(Outlet(id)) else Off(Outlet(id));
            CliSpec(stub, args) ==
              Run([Connect(StripDevice), GetInfo(StripDevice), ListChildren, Select(id), cmd],
                  if cmd in stub.failing then Err(CallFailed(cmd)) else Ok(()))
    ensures var id := stub.children[i].deviceId;
            var cmd := if ParseArgs(args).value.command == "on" then On(Outlet(id)) else Off(Outlet(id));
            PowerCommands(CliSpec(stub, args).events) == [cmd]
  {
    MatchedPowerRun(stub, ParseArgs(args).value, i);
  }

  /** The lemma above on parsed arguments: the exact run and its one power command. */
  lemma MatchedPowerRun(stub: Stub, a: Args, i: nat)
    requires a.command == "on" || a.command == "off"
    requires FirstMatch(stub.children, a.nickname) == Some(i)
    requires Connect(StripDevice) !in stub.failing && GetInfo(StripDevice) !in stub.failing
    requires ListChildren !in stub.failing && Select(stub.children[i].deviceId) !in stub.failing
    ensures var id := stub.children[i].deviceId;
            var cmd := if a.command == "on" then On(Outlet(id)) else Off(Outlet(id));
            StripSpec(stub, a) ==
              Run([Connect(StripDevice), GetInfo(StripDevice), ListChildren, Select(id), cmd],
                  if cmd in stub.failing then Err(CallFailed(cmd)) else Ok(()))
    ensures var id := stub.children[i].deviceId;
            var cmd := if a.command == "on" then On(Outlet(id)) else Off(Outlet(id));
            PowerCommands(StripSpec(stub, a).events) == [cmd]
  {
    var id := stub.children[i].deviceId;
    var cmd := if a.command == "on" then On(Outlet(id)) else Off(Outlet(id));
    MatchedPowerScan(stub, a, i);
    var listed := [Connect(StripDevice), GetInfo(StripDevice), ListChildren, Select(id)];
    assert StripSpec(stub, a).events == listed + [cmd];
    NoPowerCommands(listed);
    PowerCommandsAppend(listed, [cmd]);
  }

  /** The scan step of the lemma above: select the first match, then send the one power command. */
  lemma MatchedPowerScan(stub: Stub, a: Args, i: nat)
    requires a.command == "on" || a.command == "off"
    requires FirstMatch(stub.children, a.nickname) == Some(i)
    requires Select(stub.children[i].deviceId) !in stub.failing
    ensures var id := stub.children[i].deviceId;
            var cmd := if a.command == "on" then On(Outlet(id)) else Off(Outlet(id));
            ScanSpec(stub, a) == Run([Select(id), cmd], CallSpec(stub, cmd).result)
  {
    var id := stub.children[i].deviceId;
    if a.command == "on" {
      assert ActSpec(stub, a.command, Outlet(id)) == CallSpec(stub, On(Outlet(id)));
    } else {
      assert ActSpec(stub, a.command, Outlet(id)) == CallSpec(stub, Off(Outlet(id)));
    }
  }

  /** No child has the nickname: nothing is selected, no power command is sent, and the run succeeds. */
  lemma UnmatchedNicknameIsNoOp(stub: Stub, args: seq<string>)
    requires ParseArgs(args).Ok? && ParseArgs(args).value.command != "info"
    requires forall j :: 0 <= j < |stub.children| ==> stub.children[j].nickname != ParseArgs(args).value.nickname
    requires Connect(StripDevice) !in stub.failing && GetInfo(StripDevice) !in stub.failing
    requires ListChildren !in stub.failing
    ensures CliSpec(stub, args) == Run([Connect(StripDevice), GetInfo(StripDevice), ListChildren], Ok(()))
  {
  }

  /**
   * A command other than on, off, reboot and info (the empty command of the
   * two-argument form included) fails exactly when some child matches.
   */
  lemma InvalidCommandFailsOnlyOnMatch(stub: Stub, args: seq<string>)
    requires ParseArgs(args).Ok?
    requires ParseArgs(args).value.command !in {"on", "off", "reboot", "info"}
    requires Connect(StripDevice) !in stub.failing && GetInfo(StripDevice) !in stub.failing
    requires ListChildren !in stub.failing
    ensures CliSpec(stub, args).result.Err? <==>
              exists j :: 0 <= j < |stub.children| && stub.children[j].nickname == ParseArgs(args).value.nickname
    ensures PowerCommands(CliSpec(stub, args).events) == []
  {
    var a := ParseArgs(args).value;
    var listed := [Connect(StripDevice), GetInfo(StripDevice), ListChildren];
    var m := FirstMatch(stub.children, a.nickname);
    if m.Some? {
      var id := stub.children[m.value].deviceId;
      assert CliSpec(stub, args).events == listed + [Select(id)];
      NoPowerCommands(listed + [Select(id)]);
    } else {
      assert CliSpec(stub, args).events == listed;
      NoPowerCommands(listed);
    }
  }

  /**
   * An unknown command with a matching child: the first match is selected,
   * then the run fails with InvalidCommand and sends nothing more.
   */
  lemma InvalidCommandOnMatchedOutlet(stub: Stub, args: seq<string>, i: nat)
    requires ParseArgs(args).Ok?
    requires ParseArgs(args).value.command !in {"on", "off", "reboot", "info"}
    requires FirstMatch(stub.children, ParseArgs(args).value.nickname) == Some(i)
    requires Connect(StripDevice) !in stub.failing && GetInfo(StripDevice) !in stub.failing
    requires ListChildren !in stub.failing && Select(stub.children[i].deviceId) !in stub.failing
    ensures CliSpec(stub, args) ==
              Run([Connect(StripDevice), GetInfo(StripDevice), ListChildren, Select(stub.children[i].deviceId)],
                  Err(InvalidCommand(ParseArgs(args).value.command)))
  {
  }

  /** The two-argument form never acts: a matching child makes it fail, no match makes it a no-op. */
  lemma TwoArgumentsNeverAct(stub: Stub, program: string, nickname: string)
    requires Connect(StripDevice) !in stub.failing && GetInfo(StripDevice) !in stub.failing
    requires ListChildren !in stub.failing
    ensures CliSpec(stub, [program, nickname]).result.Err? <==>
              exists j :: 0 <= j < |stub.children| && stub.children[j].nickname == nickname
    ensures PowerCommands(CliSpec(stub, [program, nickname]).events) == []
  {
    InvalidCommandFailsOnlyOnMatch(stub, [program, nickname]);
  }

  /** A reboot of the matched outlet is off, wait, on; a failed off stops before on. */
  lemma RebootOfMatchedOutlet(stub: Stub, args: seq<string>, i: nat)
    requires ParseArgs(args).Ok? && ParseArgs(args).value.command == "reboot"
    requires FirstMatch(stub.children, ParseArgs(args).value.nickname) == Some(i)
    requires Connect(StripDevice) !in stub.failing && GetInfo(StripDevice) !in stub.failing
    requires ListChildren !in stub.failing && Select(stub.children[i].deviceId) !in stub.failing
    ensures var h := Outlet(stub.children[i].deviceId);
            CliSpec(stub, args).events ==
              [Connect(StripDevice), GetInfo(StripDevice), ListChildren, Select(stub.children[i].deviceId)] +
              if Off(h) in stub.failing then [Off(h)] else [Off(h), Wait, On(h)]
  {
    RebootSequence(stub, Outlet(stub.children[i].deviceId));
  }
}
