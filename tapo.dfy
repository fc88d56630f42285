/**
 * Shared vocabulary of the two Tapo command-line tools: the children a power
 * strip reports, the handlers commands are sent to, the trace of device calls,
 * the error outcomes, and the recording transport that stands in for the
 * `tapo` client library.
 */
module Tapo {

  datatype Option<+T> = None | Some(value: T)

  /** One outlet of a power strip, as `get_child_device_list` reports it. */
  datatype Child = Child(nickname: string, deviceId: string, deviceOn: bool)

  /**
   * The handler a command goes to: the P115 plug at the configured address,
   * the P300/P306 power strip itself, or one outlet of the strip addressed
   * by its device id (`Plug::ByDeviceId`).
   */
  datatype Handler = PlugDevice | StripDevice | Outlet(deviceId: string)

  /** Everything the tools do that reaches a device, plus the child reports they print. */
  datatype Event =
    | Connect(device: Handler)      // ApiClient::p115 / ApiClient::p300: the handler for the address
    | GetInfo(target: Handler)      // get_device_info
    | ListChildren                  // get_child_device_list
    | Select(deviceId: string)      // power_strip.plug(Plug::ByDeviceId(id))
    | On(target: Handler)
    | Off(target: Handler)
    | Wait                          // thread::sleep of the reboot settle delay
    | Reported(child: Child)        // the "Found plug with nickname ..." line

  /** Why a run ends without success; panics and `exit(1)` are failures too. */
  datatype Error =
    | BadArity                      // wrong number of command-line arguments
    | InvalidDeviceType(deviceType: string)
    | InvalidCommand(command: string)
    | MissingNickname               // `device_nickname.unwrap()` on None
    | NoMatchingOutlet(nickname: string)
    | CallFailed(call: Event)       // a library call returned an error

  datatype Result<+T> = Ok(value: T) | Err(error: Error)

  /** What a run did: the events it caused, in order, and how it ended. */
  datatype Run<+T> = Run(events: seq<Event>, result: Result<T>)

  /** The device side: which calls fail, and the child list the strip reports. */
  datatype Stub = Stub(failing: set<Event>, children: seq<Child>)

  /** A single device call: it is recorded, and it fails exactly when the stub says so. */
  function CallSpec(stub: Stub, call: Event): Run<()>
  {
    Run([call], if call in stub.failing then Err(CallFailed(call)) else Ok(()))
  }

  /** Runs `first`, and `second` only when `first` succeeded (Rust's `?`). */
  function Then(first: Run<()>, second: Run<()>): Run<()>
  {
    if first.result.Err? then first else Run(first.events + second.events, second.result)
  }

  /** The reports printed for a list of children, one per child and in list order. */
  function Reports(children: seq<Child>): seq<Event>
  {
    seq(|children|, k requires 0 <= k < |children| => Reported(children[k]))
  }

  /**
   * The index of the first child whose nickname equals `nickname` exactly;
   * None when no child has that nickname.
   */
  function FirstMatch(children: seq<Child>, nickname: string): (r: Option<nat>)
    ensures r.Some? ==> r.value < |children| && children[r.value].nickname == nickname
    ensures r.Some? ==> forall j :: 0 <= j < r.value ==> children[j].nickname != nickname
    ensures r.None? <==> forall j :: 0 <= j < |children| ==> children[j].nickname != nickname
  {
    if children == [] then None
    else if children[0].nickname == nickname then Some(0)
    else match FirstMatch(children[1..], nickname)
      case None => None
      case Some(i) => Some(i + 1)
  }

  /** A child list seen in order: `i` is the first match exactly when the children before it do not match. */
  lemma FirstMatchIsUnique(children: seq<Child>, nickname: string, i: nat)
    requires i < |children| && children[i].nickname == nickname
    requires forall j :: 0 <= j < i ==> children[j].nickname != nickname
    ensures FirstMatch(children, nickname) == Some(i)
  {
  }

  predicate IsPowerCommand(e: Event)
  {
    e.On? || e.Off?
  }

  /** The power commands (on and off) among `events`, in order. */
  function PowerCommands(events: seq<Event>): (r: seq<Event>)
    ensures forall e :: e in r ==> e in events && IsPowerCommand(e)
  {
    if events == [] then []
    else (if IsPowerCommand(events[0]) then [events[0]] else []) + PowerCommands(events[1..])
  }

  lemma {:induction false} PowerCommandsAppend(a: seq<Event>, b: seq<Event>)
    ensures PowerCommands(a + b) == PowerCommands(a) + PowerCommands(b)
  {
    if a == [] {
      assert a + b == b;
    } else {
      assert (a + b)[0] == a[0];
      assert (a + b)[1..] == a[1..] + b;
      PowerCommandsAppend(a[1..], b);
    }
  }

  /** Every power command among the events is found by PowerCommands. */
  lemma {:induction false} PowerCommandsComplete(events: seq<Event>, e: Event)
    requires e in events && IsPowerCommand(e)
    ensures e in PowerCommands(events)
  {
    if events[0] != e {
      PowerCommandsComplete(events[1..], e);
    }
  }

  /** Reporting children never sends a power command. */
  lemma {:induction false} ReportsHaveNoPowerCommands(children: seq<Child>)
    ensures PowerCommands(Reports(children)) == []
  {
    if children != [] {
      assert Reports(children)[1..] == Reports(children[1..]);
      ReportsHaveNoPowerCommands(children[1..]);
    }
  }

  /** Events in which no power command occurs. */
  lemma {:induction false} NoPowerCommands(events: seq<Event>)
    requires forall k :: 0 <= k < |events| ==> !IsPowerCommand(events[k])
    ensures PowerCommands(events) == []
  {
    if events != [] {
      NoPowerCommands(events[1..]);
    }
  }

  /**
   * The recording transport: the stand-in for the `tapo` library and the
   * devices behind it. Every call is appended to `trace`.
   */
  class Transport {
    const stub: Stub
    var trace: seq<Event>

    constructor (stub: Stub)
      ensures this.stub == stub && trace == []
    {
      this.stub := stub;
      trace := [];
    }

    /** Sends one call; `ok` is false when the device or the library reports an error. */
    method Call(call: Event) returns (ok: bool)
      modifies this
      ensures trace == old(trace) + CallSpec(stub, call).events
      ensures ok == CallSpec(stub, call).result.Ok?
    {
      trace := trace + [call];
      ok := call !in stub.failing;
    }

    /** `get_child_device_list`: the strip's children, or the call's error. */
    method GetChildDeviceList() returns (r: Result<seq<Child>>)
      modifies this
      ensures trace == old(trace) + [ListChildren]
      ensures r == if ListChildren in stub.failing then Err(CallFailed(ListChildren)) else Ok(stub.children)
    {
      var ok := Call(ListChildren);
      r := if ok then Ok(stub.children) else Err(CallFailed(ListChildren));
    }

    /** Prints one child; nothing is sent. */
    method Report(child: Child)
      modifies this
      ensures trace == old(trace) + [Reported(child)]
    {
      trace := trace + [Reported(child)];
    }

    /** The one-second settle delay of a reboot. */
    method Sleep()
      modifies this
      ensures trace == old(trace) + [Wait]
    {
      trace := trace + [Wait];
    }
  }
}
