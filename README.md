# LED producer: interest handler and access-code rotation

A Dafny model of the request side of a small named-data networking producer
on a Raspberry Pi. The producer serves interests under `/thisRoom/pi`. It
accepts a name only if it has exactly the shape
`/thisRoom/pi/<code>/led/<id>/value/<on|off|toggle>`, where `<code>` and
`<id>` are ASCII digit strings. It also checks that `<code>` is string-equal
to the current access code. If so, it toggles LED 1, 2 or 3 when `<id>` is
exactly `"1"`, `"2"` or `"3"`. It then replies `"LED #<id> is now on|off"`
with the state after the toggle, or `"Invalid LED"` for any other id. Names
that do not match and names with a wrong code get no reply and change nothing.
The action token is parsed, but every authorized request toggles. The main
loop replaces the access code once at least 30000 ms have passed since its
timestamp. The new code is the decimal text of `(int)(10.0 + Math.random() * 90.0)`,
a value in [10, 99].

Modules, one per component:

- `Wrappers` (wrappers.dfy): `Option`.
- `Names` (names.dfy): the name pattern. `Render` of a well-formed `Command`
  states the anchored regular expression. `ParseName` splits the name at `/`
  and checks it component by component. The two are proved to agree in both
  directions.
- `AccessCodes` (access_codes.dfy): `Integer.toString` as `DecimalString`,
  the random draw, and `ValidCode`, the set of codes the producer can hold.
- `Dispatch` (dispatch.dfy): the producer state as a value. It defines the
  handler `Handle`, the rotation step `Rotate`, a batch of deliveries
  `ProcessAll`, and the lemmas about them.
- `Server` (server.dfy): class `Producer`, whose fields the handler and the
  main loop update in place. Each method is proved against `Dispatch`.
- `Scenarios` (scenarios.dfy): worked examples with the code `"42"`.

The LED id is compared as a string, not parsed as a number, following the
code (src/Main.java:62-71). So `"01"` and `"002"` answer `"Invalid LED"`.

## Model

| member | source | states |
|---|---|---|
| `Names.ParseAction` | src/Main.java:44-50 | the third group is `on`, `off` or `toggle`, and the parse yields action `a` exactly when the token is `a`'s text |
| `Names.ParseNameSound` | src/Main.java:44-50 | a name the parser accepts is exactly the rendering of the well-formed command (digit code, digit id, action) it returns, with nothing before or after |
| `Names.ParseNameComplete` | src/Main.java:44-50 | every well-formed command is accepted again from its rendering, with the same three groups |
| `Names.ParseNameMatchesPattern` | src/Main.java:44-47 | the parser accepts a name if and only if the anchored pattern matches it |
| `Names.RenderInjective` | src/Main.java:44-50 | two well-formed commands with the same name text are equal, so the captured groups of a name are unique |
| `AccessCodes.CodeFromRandom` | src/Main.java:98 | truncating `10 + 90u` for a sample `u` in [0, 1) gives a value in [10, 99] |
| `AccessCodes.DecimalRoundTrip` | src/Main.java:98 | `Integer.toString` of a non-negative value is a digit string with no leading zero that denotes the value again |
| `AccessCodes.DecimalInjective` | src/Main.java:111 | different values never get the same decimal text, so string equality of codes is equality of the drawn values |
| `AccessCodes.CodeTextValid` | src/Main.java:111 | the text of a value in [10, 99] is two digits with a non-zero first digit |
| `AccessCodes.ValidCodeIffDrawn` | src/Main.java:110-112 | a string is a valid code if and only if it is the decimal text of some value in [10, 99] |
| `Dispatch.LedIndex` | src/Main.java:62-71 | the id selects LED k exactly when it is the text of k for k in 1..3, and selects none for every other string |
| `Dispatch.Flip` | src/Main.java:62-70 | toggling LED k inverts that LED and leaves the other two LEDs, the code and its timestamp unchanged |
| `Dispatch.Handle` | src/Main.java:59-78 | handling never changes the access code or its timestamp; a reply carries the interest's own name, and its freshness period is the handler's argument `l` |
| `Dispatch.HandleDropsUnmatched` | src/Main.java:44-47 | a name the pattern does not match gets no reply and leaves the whole state unchanged |
| `Dispatch.HandleDropsWrongCode` | src/Main.java:54-56 | a well-formed name whose code is not string-equal to the current code gets no reply and leaves the whole state unchanged |
| `Dispatch.HandleTogglesSelectedLed` | src/Main.java:62-71 | an authorized request for id "k" (k in 1..3) flips LED k, keeps the other LEDs and the code, and replies "LED #k is now on/off" with the new state |
| `Dispatch.HandleAnswersInvalidLed` | src/Main.java:60-73 | an authorized request whose id is not exactly "1", "2" or "3" is answered "Invalid LED" and changes nothing |
| `Dispatch.HandleIgnoresAction` | src/Main.java:50-71 | requests differing only in the action (on, off, toggle) leave the same state and get the same reply text |
| `Dispatch.HandleTwiceRestores` | src/Main.java:62-71 | delivering the same interest twice leaves the LEDs and the code exactly as before |
| `Dispatch.HandleRepliesIffAuthorized` | src/Main.java:44-56 | a reply is produced if and only if the name matches the pattern and carries the current code |
| `Dispatch.HandleRefusesLeadingZero` | src/Main.java:54-56 | a code written with a leading zero (such as "042") is never authorized, because a held code has no leading zero |
| `Dispatch.InitSpec` | src/Main.java:31-33 | at start-up all three LEDs are low and the first code is a valid two-digit code stamped with the start time |
| `Dispatch.RotateSpec` | src/Main.java:108-112 | rotation leaves the LEDs alone; before 30000 ms have elapsed it changes nothing; after that the code becomes the text of a value in [10, 99] and the timestamp becomes the current time |
| `Dispatch.RotatePreservesValid` | src/Main.java:110-112 | rotation keeps the code a valid two-digit code |
| `Dispatch.ProcessAllKeepsCode` | src/Main.java:105-106 | handling any batch of interests leaves the access code and its timestamp unchanged |
| `Dispatch.ProcessAllRepliesAuthorized` | src/Main.java:105-106 | the replies of a batch answer distinct pending interests in their order; each carries its interest's name and handler argument; the interests answered are exactly those authorized by the code current at the start of the batch |
| `Server.Producer.constructor` | src/Main.java:31-33 | the LED fields start low and the code fields hold the first drawn code and the start time |
| `Server.Producer.OnInterest` | src/Main.java:41-95 | the handler's reply and its in-place update of the LED fields are those of `Handle`, and the object invariant holds |
| `Server.Producer.RotateIfExpired` | src/Main.java:108-117 | the in-place update of the code fields is that of `Rotate`, and the invariant holds |
| `Server.Producer.Iteration` | src/Main.java:105-120 | one loop pass hands every pending interest to the handler in order, collects the replies, then runs the rotation check |
| `Scenarios.ScenarioToggleTwice` | src/Main.java:65-67 | with code "42", `/thisRoom/pi/42/led/2/value/on` turns LED 2 on and replies "LED #2 is now on"; the same request again restores the state and replies "LED #2 is now off" |
| `Scenarios.ScenarioWrongCode` | src/Main.java:54-56 | with code "42", `/thisRoom/pi/99/led/1/value/toggle` gets no reply and changes nothing |
| `Scenarios.ScenarioInvalidLed` | src/Main.java:60-71 | with code "42", the id "01" selects no LED and the reply is "Invalid LED" |

## Left out

- Named-data transport: the `Face`, prefix registration and its failure callback, `processEvents` and `putData`. These are network I/O in a library that is not part of this model. The reply a method returns is the value the handler passes to `putData`. A failed send is only logged by the source, so it is not modelled.
- Signing and `buildTestKeyChain` (src/Main.java:80-84, 127-141): foreign cryptography and identity storage. A signing failure is only logged, and the reply is still sent.
- Freshness encoding (src/Main.java:75-78): the reply records its freshness period as the handler's fourth argument `l`. What that argument means is defined by the callback interface of the networking library, which is not part of this model.
- GPIO provisioning and pin writes (src/Main.java:29-33): each LED is a boolean, with high as true.
- `CodeFromRandom`: uses exact real arithmetic for `10.0 + Math.random() * 90.0`, not IEEE doubles. The random sample is a parameter in [0, 1).
- Wall clock, `Thread.sleep(500)`, the endless `while (true)` loop and console logging: these are I/O and timing. Times are integers of milliseconds passed in as parameters. They are unbounded, so the `long` subtraction is not modelled; it cannot overflow for two non-negative wall-clock times. One loop pass is modelled by `Producer.Iteration`.
- Exceptions escaping start-up or the loop (src/Main.java:121-123) end the process after a log line. This is not modelled.
- `Name.toUri()` percent-encoding: the interest name is taken as already-rendered URI text. So is Java's rule that `$` also matches just before a final line terminator. `toUri` escapes line terminators, so such a name never reaches the pattern.
- The access code is null until line 98 runs. The handler runs only inside `processEvents` (line 106), which comes after that, so the model starts with the code already drawn.
