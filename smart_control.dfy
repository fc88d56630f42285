/**
 * The P115/P306 control tool: from a device type, a command and an optional
 * outlet nickname, it obtains exactly one handler (the plug itself, or the
 * strip outlet whose nickname matches) and sends the command to it.
 */
module SmartControl {
  import opened Tapo
  import opened Commands

  /**
   * The arguments the tool acts on. Username, password and address are passed
   * through to the library unchanged and play no part in any decision.
   */
  datatype DeviceArgs = DeviceArgs(deviceType: string, command: string, nickname: Option<string>)

  /** The four commands `main` knows. */
  datatype Intent = OnCommand | OffCommand | RebootCommand | InfoCommand

  /** The command-line word for each command. */
  function IntentName(intent: Intent): string
  {
    match intent
    case OnCommand => "on"
    case OffCommand => "off"
    case RebootCommand => "reboot"
    case InfoCommand => "info"
  }

  /** The dispatch in `main`: the four known words select their command, every other word fails. */
  function Dispatch(command: string): (r: Result<Intent>)
    ensures r.Ok? <==> command == "on" || command == "off" || command == "reboot" || command == "info"
    ensures r.Ok? ==> IntentName(r.value) == command
    ensures r.Err? ==> r.error == InvalidCommand(command)
  {
    if command == "on" then Ok(OnCommand)
    else if command == "off" then Ok(OffCommand)
    else if command == "reboot" then Ok(RebootCommand)
    else if command == "info" then Ok(InfoCommand)
    else Err(InvalidCommand(command))
  }

  /** Each command's word dispatches back to that command. */
  lemma DispatchRoundTrip(intent: Intent)
    ensures Dispatch(IntentName(intent)) == Ok(intent)
  {
  }

  /** The pair of optional handlers `get_device_info` returns. */
  datatype Handlers = Handlers(plug: Option<Handler>, strip: Option<Handler>)

  /** The failure after an unsuccessful scan: the panic message itself unwraps the nickname. */
  function NotFound(nickname: Option<string>): Error
  {
    if nickname.None? then MissingNickname else NoMatchingOutlet(nickname.value)
  }

  /** `get_device_plug`: the P115 handler for the address. */
  function PlugSpec(stub: Stub): Run<Handler>
  {
    var connect := Connect(PlugDevice);
    Run([connect], if connect in stub.failing then Err(CallFailed(connect)) else Ok(PlugDevice))
  }

  /**
   * The `for child in child_device_list` loop of `get_device_strip`. With
   * command "info" every child is reported and none is selected; otherwise the
   * first child whose nickname equals the requested one is selected by its
   * device id. A scan that selects nothing ends in a failure.
   */
  function ScanSpec(stub: Stub, a: DeviceArgs): Run<Handler>
  {
    if a.command == "info" then Run(Reports(stub.children), Err(NotFound(a.nickname)))
    else if a.nickname.None? then Run([], Err(MissingNickname))
    else match FirstMatch(stub.children, a.nickname.value)
      case None => Run([], Err(NoMatchingOutlet(a.nickname.value)))
      case Some(i) =>
        var select := Select(stub.children[i].deviceId);
        Run([select], if select in stub.failing then Err(CallFailed(select)) else Ok(Outlet(stub.children[i].deviceId)))
  }

  /** `get_device_strip`: connect to the strip, list its children, and scan them. */
  function StripSpec(stub: Stub, a: DeviceArgs): Run<Handler>
  {
    var connect := Connect(StripDevice);
    if connect in stub.failing then Run([connect], Err(CallFailed(connect)))
    else if ListChildren in stub.failing then Run([connect, ListChildren], Err(CallFailed(ListChildren)))
    else
      var scan := ScanSpec(stub, a);
      Run([connect, ListChildren] + scan.events, scan.result)
  }

  /** `get_device_info`: the device type chooses which of the two handlers is obtained. */
  function DeviceInfoSpec(stub: Stub, a: DeviceArgs): Run<Handlers>
  {
    if a.deviceType == "plug" then
      var p := PlugSpec(stub);
      Run(p.events, if p.result.Ok? then Ok(Handlers(Some(p.result.value), None)) else Err(p.result.error))
    else if a.deviceType == "strip" then
      var s := StripSpec(stub, a);
      Run(s.events, if s.result.Ok? then Ok(Handlers(None, Some(s.result.value))) else Err(s.result.error))
    else Run([], Err(InvalidDeviceType(a.deviceType)))
  }

  /** What each command does to one handler. */
  function ActSpec(stub: Stub, intent: Intent, h: Handler): Run<()>
  {
    match intent
    case OnCommand => CallSpec(stub, On(h))
    case OffCommand => CallSpec(stub, Off(h))
    case RebootCommand => RebootSpec(stub, h)
    case InfoCommand => CallSpec(stub, GetInfo(h))
  }

  /** One `match plug { Some(..) => .., _ => {} }` block of the command functions. */
  function ActOnSpec(stub: Stub, intent: Intent, h: Option<Handler>): Run<()>
  {
    if h.None? then Run([], Ok(())) else ActSpec(stub, intent, h.value)
  }

  /** `on`, `off`, `reboot` and `info`: obtain the handlers, then act on the plug, then on the strip outlet. */
  function PerformSpec(stub: Stub, a: DeviceArgs, intent: Intent): Run<()>
  {
    var d := DeviceInfoSpec(stub, a);
    if d.result.Err? then Run(d.events, Err(d.result.error))
    else
      var p := Then(ActOnSpec(stub, intent, d.result.value.plug), ActOnSpec(stub, intent, d.result.value.strip));
      Run(d.events + p.events, p.result)
  }

  /** `main`: dispatch on the command word. */
  function MainSpec(stub: Stub, a: DeviceArgs): Run<()>
  {
    var d := Dispatch(a.command);
    if d.Err? then Run([], Err(d.error)) else PerformSpec(stub, a, d.value)
  }

  // ---------------------------------------------------------------------------
  // The operations, sending their calls through the transport

  method GetDevicePlug(t: Transport) returns (r: Result<Handler>)
    modifies t
    ensures t.trace == old(t.trace) + PlugSpec(t.stub).events
    ensures r == PlugSpec(t.stub).result
  {
    var ok := t.Call(Connect(PlugDevice));
    r := if ok then Ok(PlugDevice) else Err(CallFailed(Connect(PlugDevice)));
  }

  method GetDeviceStrip(t: Transport, a: DeviceArgs) returns (r: Result<Handler>)
    modifies t
    ensures t.trace == old(t.trace) + StripSpec(t.stub, a).events
    ensures r == StripSpec(t.stub, a).result
  {
    var ok := t.Call(Connect(StripDevice));
    if !ok {
      return Err(CallFailed(Connect(StripDevice)));
    }
    var listing := t.GetChildDeviceList();
    if listing.Err? {
      return Err(listing.error);
    }
    r := Scan(t, a, listing.value);
  }

  method Scan(t: Transport, a: DeviceArgs, children: seq<Child>) returns (r: Result<Handler>)
    requires children == t.stub.children
    modifies t
    ensures t.trace == old(t.trace) + ScanSpec(t.stub, a).events
    ensures r == ScanSpec(t.stub, a).result
  {
    var i := 0;
    while i < |children|
      invariant 0 <= i <= |children|
      invariant t.trace == old(t.trace) + if a.command == "info" then Reports(children[..i]) else []
      invariant a.command != "info" && a.nickname.Some? ==>
                  forall j :: 0 <= j < i ==> children[j].nickname != a.nickname.value
    {
      var child := children[i];
      if a.command == "info" {
        t.Report(child);
        assert Reports(children[..i + 1]) == Reports(children[..i]) + [Reported(child)];
      } else {
        if a.nickname.None? {
          return Err(MissingNickname);
        }
        if child.nickname == a.nickname.value {
          FirstMatchIsUnique(children, a.nickname.value, i);
          var ok := t.Call(Select(child.deviceId));
          return if ok then Ok(Outlet(child.deviceId)) else Err(CallFailed(Select(child.deviceId)));
        }
      }
      i := i + 1;
    }
    assert children[..i] == children;
    return Err(NotFound(a.nickname));
  }

  method GetDeviceInfo(t: Transport, a: DeviceArgs) returns (r: Result<Handlers>)
    modifies t
    ensures t.trace == old(t.trace) + DeviceInfoSpec(t.stub, a).events
    ensures r == DeviceInfoSpec(t.stub, a).result
  {
    if a.deviceType == "plug" {
      var p := GetDevicePlug(t);
      r := if p.Ok? then Ok(Handlers(Some(p.value), None)) else Err(p.error);
    } else if a.deviceType == "strip" {
      var s := GetDeviceStrip(t, a);
      r := if s.Ok? then Ok(Handlers(None, Some(s.value))) else Err(s.error);
    } else {
      r := Err(InvalidDeviceType(a.deviceType));
    }
  }

  method Act(t: Transport, intent: Intent, h: Handler) returns (r: Result<()>)
    modifies t
    ensures t.trace == old(t.trace) + ActSpec(t.stub, intent, h).events
    ensures r == ActSpec(t.stub, intent, h).result
  {
    match intent
    case OnCommand => r := TurnOn(t, h);
    case OffCommand => r := TurnOff(t, h);
    case RebootCommand => r := Reboot(t, h);
    case InfoCommand =>
      var ok := t.Call(GetInfo(h));
      r := if ok then Ok(()) else Err(CallFailed(GetInfo(h)));
  }

  method Perform(t: Transport, a: DeviceArgs, intent: Intent) returns (r: Result<()>)
    modifies t
    ensures t.trace == old(t.trace) + PerformSpec(t.stub, a, intent).events
    ensures r == PerformSpec(t.stub, a, intent).result
  {
    var handlers := GetDeviceInfo(t, a);
    if handlers.Err? {
      return Err(handlers.error);
    }
    var plug, strip := handlers.value.plug, handlers.value.strip;
    if plug.Some? {
      r := Act(t, intent, plug.value);
      if r.Err? {
        return;
      }
    }
    if strip.Some? {
      r := Act(t, intent, strip.value);
      if r.Err? {
        return;
      }
    }
    return Ok(());
  }

  method RunControl(t: Transport, a: DeviceArgs) returns (r: Result<()>)
    modifies t
    ensures t.trace == old(t.trace) + MainSpec(t.stub, a).events
    ensures r == MainSpec(t.stub, a).result
  {
    var intent := Dispatch(a.command);
    if intent.Err? {
      return Err(intent.error);
    }
    r := Perform(t, a, intent.value);
  }

  // ---------------------------------------------------------------------------
  // Properties

  /**
   * "plug" yields the plug handler and no strip handler, "strip" yields an
   * outlet handler and no plug handler, and any other type fails before any call.
   */
  lemma DeviceTypeSelectsOneHandler(stub: Stub, a: DeviceArgs)
    ensures a.deviceType == "plug" ==>
              DeviceInfoSpec(stub, a).result ==
                if Connect(PlugDevice) in stub.failing then Err(CallFailed(Connect(PlugDevice)))
                else Ok(Handlers(Some(PlugDevice), None))
    ensures a.deviceType == "strip" && DeviceInfoSpec(stub, a).result.Ok? ==>
              var pair := DeviceInfoSpec(stub, a).result.value;
              pair.plug.None? && pair.strip.Some? && pair.strip.value.Outlet?
    ensures a.deviceType != "plug" && a.deviceType != "strip" ==>
              DeviceInfoSpec(stub, a) == Run([], Err(InvalidDeviceType(a.deviceType)))
    ensures DeviceInfoSpec(stub, a).result.Ok? ==>
              var pair := DeviceInfoSpec(stub, a).result.value;
              pair.plug.Some? != pair.strip.Some?
  {
  }

  /**
   * For a command other than "info" and a given nickname, the strip resolves
   * exactly when some child has that nickname (and the calls succeed), and
   * then to the outlet of the FIRST such child, addressed by its device id.
   */
  lemma StripResolvesFirstMatch(stub: Stub, a: DeviceArgs, nickname: string)
    requires a.command != "info" && a.nickname == Some(nickname)
    ensures StripSpec(stub, a).result.Ok? <==>
              && Connect(StripDevice) !in stub.failing
              && ListChildren !in stub.failing
              && FirstMatch(stub.children, nickname).Some?
              && Select(stub.children[FirstMatch(stub.children, nickname).value].deviceId) !in stub.failing
    ensures StripSpec(stub, a).result.Ok? ==>
              exists i :: 0 <= i < |stub.children|
                && stub.children[i].nickname == nickname
                && (forall j :: 0 <= j < i ==> stub.children[j].nickname != nickname)
                && StripSpec(stub, a).result.value == Outlet(stub.children[i].deviceId)
  {
    if StripSpec(stub, a).result.Ok? {
      var i := FirstMatch(stub.children, nickname).value;
      assert StripSpec(stub, a).result.value == Outlet(stub.children[i].deviceId);
    }
  }

  /** No child with the requested nickname: the strip never yields a handler and no outlet is selected. */
  lemma UnmatchedNicknameFails(stub: Stub, a: DeviceArgs)
    requires a.nickname.Some?
    requires forall j :: 0 <= j < |stub.children| ==> stub.children[j].nickname != a.nickname.value
    ensures StripSpec(stub, a).result.Err?
    ensures forall e :: e in StripSpec(stub, a).events ==> !e.Select?
    ensures Connect(StripDevice) !in stub.failing && ListChildren !in stub.failing ==>
              StripSpec(stub, a).result == Err(NoMatchingOutlet(a.nickname.value))
  {
    var s := StripSpec(stub, a);
    if Connect(StripDevice) !in stub.failing && ListChildren !in stub.failing && a.command == "info" {
      forall e | e in s.events ensures !e.Select? {
        var k :| 0 <= k < |s.events| && s.events[k] == e;
        if k >= 2 {
          assert e == Reports(stub.children)[k - 2];
        }
      }
    }
  }

  /**
   * With command "info" the scan reports every child, in order, selects
   * none, and always ends in the not-found failure.
   */
  lemma InfoReportsEveryChild(stub: Stub, a: DeviceArgs)
    requires a.command == "info"
    ensures StripSpec(stub, a).result.Err?
    ensures Connect(StripDevice) !in stub.failing && ListChildren !in stub.failing ==>
              StripSpec(stub, a).events == [Connect(StripDevice), ListChildren] + Reports(stub.children)
    ensures Connect(StripDevice) !in stub.failing && ListChildren !in stub.failing ==>
              StripSpec(stub, a).result == Err(NotFound(a.nickname))
  {
  }

  /** So "info" on a strip always fails, and its info call is never made. */
  lemma InfoOnStripFails(stub: Stub, a: DeviceArgs)
    requires a.deviceType == "strip" && a.command == "info"
    ensures MainSpec(stub, a).result.Err?
    ensures forall e :: e in MainSpec(stub, a).events ==> !e.GetInfo?
  {
    var s := StripSpec(stub, a);
    assert MainSpec(stub, a).events == s.events;
    forall e | e in s.events ensures !e.GetInfo? {
      var k :| 0 <= k < |s.events| && s.events[k] == e;
      if k >= 2 {
        assert e == Reports(stub.children)[k - 2];
      }
    }
  }

  /** A strip command other than "info" without a nickname fails. */
  lemma MissingNicknameFails(stub: Stub, a: DeviceArgs)
    requires a.deviceType == "strip" && a.command != "info" && a.nickname.None?
    ensures MainSpec(stub, a).result.Err?
    ensures Connect(StripDevice) !in stub.failing && ListChildren !in stub.failing && Dispatch(a.command).Ok? ==>
              MainSpec(stub, a).result == Err(MissingNickname)
    ensures forall e :: e in MainSpec(stub, a).events ==> !IsPowerCommand(e) && !e.Select?
  {
  }

  /** Obtaining the handlers never sends a power command. */
  lemma DeviceInfoSendsNoPower(stub: Stub, a: DeviceArgs)
    ensures PowerCommands(DeviceInfoSpec(stub, a).events) == []
  {
    var events := DeviceInfoSpec(stub, a).events;
    if a.deviceType == "strip" && Connect(StripDevice) !in stub.failing && ListChildren !in stub.failing
       && a.command == "info"
    {
      var listed := [Connect(StripDevice), ListChildren];
      NoPowerCommands(listed);
      ReportsHaveNoPowerCommands(stub.children);
      PowerCommandsAppend(listed, Reports(stub.children));
    } else {
      NoPowerCommands(events);
    }
  }

  /** The one handler `get_device_info` yields. */
  function TheHandler(pair: Handlers): Handler
    requires pair.plug.Some? || pair.strip.Some?
  {
    if pair.plug.Some? then pair.plug.value else pair.strip.value
  }

  /**
   * `on` and `off` send exactly one power command, to the one handler
   * obtained; when no handler is obtained they send none.
   */
  lemma PowerSendsExactlyOne(stub: Stub, a: DeviceArgs, intent: Intent)
    requires intent == OnCommand || intent == OffCommand
    ensures DeviceInfoSpec(stub, a).result.Err? ==>
              PowerCommands(PerformSpec(stub, a, intent).events) == []
    ensures DeviceInfoSpec(stub, a).result.Ok? ==>
              var h := TheHandler(DeviceInfoSpec(stub, a).result.value);
              PowerCommands(PerformSpec(stub, a, intent).events) ==
                [if intent == OnCommand then On(h) else Off(h)]
  {
    var d := DeviceInfoSpec(stub, a);
    DeviceTypeSelectsOneHandler(stub, a);
    DeviceInfoSendsNoPower(stub, a);
    if d.result.Ok? {
      var h := TheHandler(d.result.value);
      var cmd := if intent == OnCommand then On(h) else Off(h);
      var p := Then(ActOnSpec(stub, intent, d.result.value.plug), ActOnSpec(stub, intent, d.result.value.strip));
      assert p.events == [cmd];
      PowerCommandsAppend(d.events, p.events);
      assert PowerCommands([cmd]) == [cmd] + PowerCommands([]);
    }
  }

  /**
   * `reboot` runs the reboot sequence (off, wait, on) on the one obtained
   * handler, right after the calls that obtained it; when off fails, no on
   * command is ever sent.
   */
  lemma RebootTargetsOneHandler(stub: Stub, a: DeviceArgs)
    ensures DeviceInfoSpec(stub, a).result.Ok? ==>
              var h := TheHandler(DeviceInfoSpec(stub, a).result.value);
              PerformSpec(stub, a, RebootCommand) ==
                Run(DeviceInfoSpec(stub, a).events + RebootSpec(stub, h).events, RebootSpec(stub, h).result)
    ensures DeviceInfoSpec(stub, a).result.Ok? ==>
              var h := TheHandler(DeviceInfoSpec(stub, a).result.value);
              PowerCommands(PerformSpec(stub, a, RebootCommand).events) ==
                if Off(h) in stub.failing then [Off(h)] else [Off(h), On(h)]
    ensures DeviceInfoSpec(stub, a).result.Ok? &&
            Off(TheHandler(DeviceInfoSpec(stub, a).result.value)) in stub.failing ==>
              On(TheHandler(DeviceInfoSpec(stub, a).result.value)) !in PerformSpec(stub, a, RebootCommand).events
  {
    var d := DeviceInfoSpec(stub, a);
    DeviceTypeSelectsOneHandler(stub, a);
    DeviceInfoSendsNoPower(stub, a);
    if d.result.Ok? {
      var h := TheHandler(d.result.value);
      RebootSequence(stub, h);
      var p := Then(ActOnSpec(stub, RebootCommand, d.result.value.plug),
                    ActOnSpec(stub, RebootCommand, d.result.value.strip));
      assert p == RebootSpec(stub, h);
      var events := PerformSpec(stub, a, RebootCommand).events;
      PowerCommandsAppend(d.events, p.events);
      if Off(h) in stub.failing && On(h) in events {
        PowerCommandsComplete(events, On(h));
        assert false;
      }
    }
  }

  /** `main` routes the four known words to their command and fails on every other word before any call. */
  lemma MainRoutesCommands(stub: Stub, a: DeviceArgs)
    ensures forall intent :: a.command == IntentName(intent) ==>
              MainSpec(stub, a) == PerformSpec(stub, a, intent)
    ensures a.command != "on" && a.command != "off" && a.command != "reboot" && a.command != "info" ==>
              MainSpec(stub, a) == Run([], Err(InvalidCommand(a.command)))
  {
    forall intent | a.command == IntentName(intent)
      ensures MainSpec(stub, a) == PerformSpec(stub, a, intent)
    {
      DispatchRoundTrip(intent);
    }
  }
}
