# Tapo command-line tools and hub child list, in Dafny

This project models the decision logic of three small programs built on the `tapo` client library for
TP-Link Tapo smart-home devices:

- the P115/P306 control tool (`tapo_smart_control`). It takes a device type (`plug` or `strip`), a command
  (`on`, `off`, `reboot`, `info`) and an optional outlet nickname. It gets exactly one handler: the plug
  at the address, or the strip outlet with that nickname, selected by its device id. Then it sends the
  command to that handler;
- the P306 strip tool (`tapo_306_strip [command] nickname`). For `info` it reports every outlet.
  Otherwise it acts on the first outlet whose nickname matches and then stops;
- the Python binding's hub handler (`get_child_device_list`). It turns each child the hub reports into
  a typed object, or into a `None` placeholder when the child is of a model it does not know.

The library and the devices behind it are a recording `Transport` (module `Tapo`). Every call it gets
is appended to a trace of `Event`s. A `Stub` decides which calls fail and which children the strip
reports. Printing a child ("Found plug with nickname ...") is recorded as a `Reported` event. The
one-second sleep of a reboot is recorded as a `Wait` event. A panic, an `exit(1)`, an `unwrap` on an
error and a `?` that passes an error on all end the run with an `Err` carrying the reason.

Each operation that sends calls is a method that takes the transport. Each method is proved against a pure
function of the stub, such as `StripSpec` or `PerformSpec`. That function gives the events the method
appends and the result it returns. The properties are lemmas about those functions.

Modules: `Tapo` (shared types, the transport, the nickname scan `FirstMatch`), `Commands` (on, off and
reboot of one handler, used by both tools), `SmartControl` (tapo/src/tapo_smart_control.rs), `StripCli`
(tapo/src/tapo_smart_outlet_306.rs), `Hub` (tapo-py/src/handlers/hub_handler.rs).

Behaviour of the code worth knowing before reading the lemmas:

- the P306 tool treats an unmatched nickname as a successful no-op: it finishes successfully and sends
  nothing after listing (`StripCli.UnmatchedNicknameIsNoOp`). The control tool fails there, by a panic;
- the hub handler appends `None` for a child of a model it does not know. That entry carries nothing
  of the child. The model does the same;
- `info` on a strip in the control tool reports every outlet. It then always reaches the "no matching
  outlet" panic, so it never succeeds and never asks the strip for its info (`SmartControl.InfoOnStripFails`);
- the message of the panic at tapo/src/tapo_smart_control.rs:205 unwraps the nickname. With no nickname,
  the failure is therefore the `unwrap` panic (`MissingNickname`), not the not-found panic.

## Model

| member | source | states |
|---|---|---|
| `Tapo.FirstMatch` | tapo/src/tapo_smart_control.rs:187-203 | the index of the first child whose nickname equals the requested one exactly: that child matches and no earlier one does; None exactly when no child matches |
| `Commands.TurnOn` | tapo/src/tapo_smart_outlet_306.rs:30-36 | sends one on call to the handler and returns its outcome |
| `Commands.TurnOff` | tapo/src/tapo_smart_outlet_306.rs:38-44 | sends one off call to the handler and returns its outcome |
| `Commands.Reboot` | tapo/src/tapo_smart_outlet_306.rs:46-53 | the trace grows by the reboot sequence of the handler and the result is its outcome |
| `Commands.RebootSequence` | tapo/src/tapo_smart_control.rs:131-141 | reboot is off, wait, on to the same handler; if off fails, only off is sent, on never is, and the off failure is reported; the reboot succeeds iff both calls do |
| `SmartControl.Dispatch` | tapo/src/tapo_smart_control.rs:227-233 | exactly the words on, off, reboot, info select a command, namely the one of that name; every other word fails with InvalidCommand |
| `SmartControl.DispatchRoundTrip` | tapo/src/tapo_smart_control.rs:227-231 | each command's word dispatches back to that command |
| `SmartControl.MainRoutesCommands` | tapo/src/tapo_smart_control.rs:219-234 | main runs the command whose name is the word; any other word fails before any device call |
| `SmartControl.DeviceTypeSelectsOneHandler` | tapo/src/tapo_smart_control.rs:208-216 | "plug" yields the plug handler and no strip handler, or the connect failure; "strip" yields an outlet handler and no plug handler; any other type fails with no call; a success holds exactly one handler |
| `SmartControl.StripResolvesFirstMatch` | tapo/src/tapo_smart_control.rs:187-203 | for a command other than info, the strip resolves iff the calls succeed and some child has the nickname, and then to the outlet of the first such child, addressed by its device id |
| `SmartControl.UnmatchedNicknameFails` | tapo/src/tapo_smart_control.rs:197-205 | when no child has the nickname, resolution fails, no outlet is selected, and the failure is NoMatchingOutlet once connecting and listing succeed |
| `SmartControl.InfoReportsEveryChild` | tapo/src/tapo_smart_control.rs:187-205 | with info, the scan reports every child in order, selects none, and always fails; once connecting and listing succeed the failure is the not-found panic (MissingNickname without a nickname, NoMatchingOutlet with one) |
| `SmartControl.InfoOnStripFails` | tapo/src/tapo_smart_control.rs:146-171 | info on a strip always fails and never sends an info call |
| `SmartControl.MissingNicknameFails` | tapo/src/tapo_smart_control.rs:198-205 | a strip command other than info without a nickname fails (MissingNickname once the device calls succeed) and sends no selection and no power command |
| `SmartControl.DeviceInfoSendsNoPower` | tapo/src/tapo_smart_control.rs:179-216 | obtaining the handlers sends no power command |
| `SmartControl.PowerSendsExactlyOne` | tapo/src/tapo_smart_control.rs:61-113 | on and off send exactly one power command, to the one handler obtained, and none when no handler is obtained |
| `SmartControl.RebootTargetsOneHandler` | tapo/src/tapo_smart_control.rs:115-144 | reboot runs the whole reboot sequence (off, wait, on) on the one handler obtained, right after the calls that obtained it, with that sequence's outcome; its power commands are off then on, and if off fails only off is sent and no on call appears |
| `SmartControl.GetDevicePlug` | tapo/src/tapo_smart_control.rs:173-177 | connects to the plug: the plug handler or the connect failure |
| `SmartControl.GetDeviceStrip` | tapo/src/tapo_smart_control.rs:179-206 | connects to the strip, lists its children and scans them: the trace and the result are those of `StripSpec`, a connect or listing failure ending the run |
| `SmartControl.Scan` | tapo/src/tapo_smart_control.rs:187-205 | the child loop appends exactly the events of `ScanSpec` and returns its result: all reports and the not-found failure for info, otherwise the outlet of the first match, or the failure |
| `SmartControl.GetDeviceInfo` | tapo/src/tapo_smart_control.rs:208-216 | the trace and the result are those of the device-type selection `DeviceInfoSpec` |
| `SmartControl.Act` | tapo/src/tapo_smart_control.rs:146-171 | the command acts on one handler: on, off, reboot, or an info call |
| `SmartControl.Perform` | tapo/src/tapo_smart_control.rs:61-113 | obtains the handlers, acts on the plug then the strip outlet, and stops at the first failure |
| `SmartControl.RunControl` | tapo/src/tapo_smart_control.rs:218-234 | the whole tool: the trace and the result are those of `MainSpec` |
| `StripCli.ParseArgsArity` | tapo/src/tapo_smart_outlet_306.rs:11-27 | vectors shorter than 2 or longer than 3 fail with BadArity; 3 give command args[1] and nickname args[2]; 2 give the empty command and nickname args[1] |
| `StripCli.ParseCommandLine` | tapo/src/tapo_smart_outlet_306.rs:16-25 | parsing the command line a user types for a command and nickname gives them back |
| `StripCli.Act` | tapo/src/tapo_smart_outlet_306.rs:92-97 | on, off or reboot of the selected outlet; any other command fails with no call |
| `StripCli.Scan` | tapo/src/tapo_smart_outlet_306.rs:79-101 | the child loop appends exactly the events of `ScanSpec` and returns its result: all reports for info, otherwise the first match only and a stop |
| `StripCli.RunStripCli` | tapo/src/tapo_smart_outlet_306.rs:56-104 | the whole tool: the trace and the result are those of `CliSpec` |
| `StripCli.InfoReportsEveryChild` | tapo/src/tapo_smart_outlet_306.rs:70-85 | with info, every child is reported in order after connect, info and list; the run succeeds and sends no power command |
| `StripCli.OnlyFirstMatchIsAddressed` | tapo/src/tapo_smart_outlet_306.rs:87-98 | for another command, every selection and every power command goes to the first matching child |
| `StripCli.PowerCommandReachesMatchedOutlet` | tapo/src/tapo_smart_outlet_306.rs:87-98 | on or off with a matching child: the exact trace is connect, info, list, select of the first match, then that one power command to its outlet; the run's outcome is that command's outcome, and it is the only power command sent |
| `StripCli.UnmatchedNicknameIsNoOp` | tapo/src/tapo_smart_outlet_306.rs:79-103 | no matching child: the run succeeds and sends nothing after listing |
| `StripCli.InvalidCommandFailsOnlyOnMatch` | tapo/src/tapo_smart_outlet_306.rs:92-97 | an unknown command fails iff some child matches, and it never sends a power command |
| `StripCli.InvalidCommandOnMatchedOutlet` | tapo/src/tapo_smart_outlet_306.rs:87-97 | an unknown command with a matching child: the exact run is connect, info, list, select of the first match, and then the InvalidCommand failure with nothing more sent |
| `StripCli.TwoArgumentsNeverAct` | tapo/src/tapo_smart_outlet_306.rs:22-25 | the two-argument form (empty command) fails iff some child matches and never sends a power command |
| `StripCli.RebootOfMatchedOutlet` | tapo/src/tapo_smart_outlet_306.rs:46-53 | rebooting the matched outlet sends off, waits, sends on; if off fails, nothing follows it |
| `Hub.ConvertKeepsModelAndState` | tapo-py/src/handlers/hub_handler.rs:48-73 | a child becomes None iff it is outside the seven models; a known child becomes the object of its own model, with its own state |
| `Hub.ConvertSource` | tapo-py/src/handlers/hub_handler.rs:49-68 | every typed object is what its source child converts to |
| `Hub.ConvertAllAt` | tapo-py/src/handlers/hub_handler.rs:47-74 | the output has as many entries as there are children, and entry k comes from child k |
| `Hub.TypedEntriesCountKnownChildren` | tapo-py/src/handlers/hub_handler.rs:47-74 | the output has as many typed entries as there are known children |
| `Hub.GetChildDeviceList` | tapo-py/src/handlers/hub_handler.rs:41-80 | a listing error is passed on; otherwise one entry per child, in order, each the conversion of its child |

## Left out

- Session handling: `refresh_session` (tapo-py/src/handlers/hub_handler.rs:28-30) and the sessions inside
  the library. The shown code has no session, expiry or retry logic of its own.
- The library calls themselves (`ApiClient`, `p115`, `p300`, `plug`, `get_device_info`,
  `get_child_device_list`). Each is one recorded call whose success the stub decides. The child list
  is stub data.
- The library's own list of hub child models. The model takes it as the seven typed models plus one
  `Other` case that stands for every variant the wildcard arm catches.
- The hub's `get_device_info`, `get_device_info_json`, `get_child_device_list_json` and
  `get_child_device_component_list_json` only pass library results on. They have no logic of their own.
- The async runtime, `Arc<Mutex<..>>`, the GIL and the `call_handler_method!` macro. These are concurrency
  and binding glue. The conversion `into_py` becomes one host-object constructor per model.
- `argh` parsing of the control tool's arguments. The model starts from its parsed fields. Username,
  password and address are passed through unchanged, so they are not modelled. The P306 tool reads
  three environment variables (tapo/src/tapo_smart_outlet_306.rs:62-64). An unset one ends the run with an
  error before any device call. The model takes all three to be set, so `StripCli.CliSpec` starts from the
  argument vector.
- The hub handler discards the result of each `append` to the Python list (tapo-py/src/handlers/hub_handler.rs:50-71).
  A failed append would silently drop that child. The model takes every append to succeed, which is why
  `Hub.GetChildDeviceList` can promise one entry per child.
- Printed text. Child reports are kept as `Reported` events. Printing the device info (after the info
  call) is not recorded.
- The timing of the one-second sleep. It is only the `Wait` marker.
- The commented-out `parse_args` in the control tool.
