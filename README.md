# Parking display core in Dafny

This project models the part of the parking-gate display server that decides
what the 10-character serial sign shows. It has two parts.

- **The serial-port service** (`services/serialPort.js`). It writes a message
  to the device once. It can also start one scroll interval. Every 150 ms,
  when a device path is configured, that interval writes the window of line 1
  at the current position (at most 10 characters, shorter or empty near the
  end of its buffer). When line 2 is present and non-empty, it also writes a
  comma and line 2's window at the same position. It then advances the
  position modulo the first line's length plus five spaces of padding.
  `stopDynamic` cancels the interval.
- **The route state machine** (`routes/index.js`). It holds the module-level
  `viewMode`, `persistedData`, `clockInterval` and `currentTimeout`. There is
  one transition per HTTP handler: `/`, `/plateInfo`, `/charges`, `/clock`,
  `/welcome`, `/blacklisted`, `/thankyou`, `/forbidden`, `/reset-usb` and
  `/clear`. The timer callbacks are transitions too: the clock tick, the
  blacklist follow-up and the scroll tick. So is the `sendUpdate` step of
  `/events`.

## Files and modules

- `runtime.dfy` (`Runtime`): `Option`, and timer handles as `TimerId`.
  `Handles` maps a handle field to the set of live timers it accounts for.
- `js_strings.dfy` (`JsStrings`): the JavaScript string operations the code
  relies on:
  - `substring`, with clamped and swapped bounds;
  - `split` on one character, and `join`;
  - `String(n)`;
  - `padStart`;
  - `slice(-2)`.
- `serial_port.dfy` (`SerialPort`):
  - the scroll window (`ShiftText`);
  - the line split (`SplitLines`), the period and the frame a tick writes;
  - the scroll trajectory;
  - the class `SerialPortService`, whose static state is
    `currentInterval`, kept together with the scroller's `position`.
- `clock_format.dfy` (`ClockFormat`): `formatTime`, `formatDate` and the
  clock message. The year is shown as the last two digits of the Buddhist
  year, which is the Gregorian year plus 543.
- `routes.dfy` (`Routes`):
  - the message each handler builds;
  - the class `DisplaySession`, with one method per handler and callback.

## State and ghost state

Each timer is modelled twice:

- as an `Option<TimerId>` field, which is what the code stores;
- as a ghost set of live timers, meaning created and not yet cleared or
  fired.

`Valid()` says that each live set is exactly the handle its field holds, so
no timer leaks. The ghost `writes` log of `SerialPortService` records, in
order, every text handed to the device. The ghost `usbResets` counter counts
calls of `resetUSB`.

`Exclusive()` says that at most one timer of any kind is alive. The kinds
are the clock interval, the blacklist timeout and the scroll interval.

- Every handler that answers keeps it: `/`, `/plateInfo`, `/charges`,
  `/welcome`, `/blacklisted`, `/thankyou`, `/forbidden` and `/clear`.
- `/reset-usb` and the `sendUpdate` step preserve it.
- The blacklist follow-up keeps it.
- The clock keeps it whenever its USB reset does not throw.

When the first clock tick falls in the reset window (second 59, first 20 ms)
and `resetUSB` throws, the `catch` skips `displayMessage`, and so it also
skips `stopDynamic`. An earlier scroll interval then keeps running beside the
clock interval. The contracts of `GetClock` and `ClockTick` promise
`Exclusive()` only when the reset is not due or does not fail. This is
exactly the gap the code leaves.

## Quirks of the code

- The scroll period is `line1.length + PADDING.length`. The second line does
  not count, even when it is longer (`serialPort.js` line 44);
  `PeriodIgnoresSecondLine` states this for every message.
  `ForbiddenSecondLineRunsOut` shows the second line running out of text
  before the period ends.
- The routes call `SerialPortService.displayDynamicBothLines` and
  `SerialPortService.clearDisplay`, but the service defines neither. So
  `/welcome` and `/clear` always answer 500 with the resulting `TypeError`
  message, after their earlier steps:
  - both clear the route timers;
  - `/welcome` also sets `viewMode`.

  The device, and any scroll already running, is left untouched.
- `config/config.js` line 17 always gives a non-empty `serialPortFile`: the
  environment variable, or else a fixed per-platform device path. So in the program as
  configured, `HasDevicePath()` always holds. The model keeps the empty-path
  branch of `services/serialPort.js` lines 20 and 40 anyway, as the service
  code is written.
- The colour argument the handlers compute is passed to service methods
  that take one parameter, so it has no effect.
- `/charges` defaults the amount to `"฿0"` and then writes `",฿"` before
  it. Without an amount the sign therefore shows `",฿฿0"`
  (`ChargeWithoutAmount`).

## Model

| member | source | states |
|---|---|---|
| Runtime.Handles | routes/index.js:10-11 | a handle field accounts for exactly its one live timer, or none when it is null |
| JsStrings.Substring | services/serialPort.js:50 | `substring` is the slice between the clamped bounds, the suffix when the end overshoots, and empty from the end on |
| JsStrings.Split | services/serialPort.js:35 | `split(',')` returns at least one part and no part contains the separator |
| JsStrings.JoinSplit | services/serialPort.js:35 | joining the parts of a split with the separator gives back the message |
| JsStrings.SplitJoin | services/serialPort.js:35 | splitting the join of separator-free parts gives back exactly those parts |
| JsStrings.SplitAtFirst | services/serialPort.js:35 | a message splits at its first separator into the first line and the parts of the rest |
| JsStrings.SplitNoSeparator | services/serialPort.js:35 | a message without a comma is one part, the whole message |
| JsStrings.SplitWithSeparator | services/serialPort.js:35 | a message with a comma splits into at least two parts |
| JsStrings.NatToString | routes/index.js:32 | `String(n)` of a non-negative integer is a non-empty string of decimal digits with no leading zero |
| JsStrings.NatToStringValue | routes/index.js:32 | the digits of `String(n)` read back as `n` |
| JsStrings.NatToStringShape | routes/index.js:44 | `String(n)` ends in `n`'s units digit, and is one digit below ten and two below a hundred |
| JsStrings.IntToString | routes/index.js:44 | `String(n)` of a negative integer is a minus sign before the digits of `-n` |
| JsStrings.PadStart | routes/index.js:32-34 | `padStart` never truncates, keeps the text as a suffix, and fills only the front |
| ClockFormat.TwoDigits | routes/index.js:32-34 | a field is at least two decimal digits, exactly two below 100; equal to `padStart` by `TwoDigitsIsPadStart` |
| JsStrings.SliceLastTwo | routes/index.js:44 | `slice(-2)` is the last two characters, or the whole of a shorter string |
| ClockFormat.TwoDigitsIsPadStart | routes/index.js:32-34 | the two-digit field agrees with `String(n).padStart(2, "0")` for every `n` |
| ClockFormat.TwoDigitsRoundTrip | routes/index.js:39-40 | a field below 100 is exactly two digits that read back as the field |
| ClockFormat.FormatTime | routes/index.js:31-36 | `formatTime` is at least eight characters, exactly eight for fields below 100; the layout is in `FormatTimeLayout` |
| ClockFormat.FormatTimeLayout | routes/index.js:31-36 | `formatTime` is `HH:MM:SS`: eight characters, colons at 2 and 5, and each field reads back as hours, minutes and seconds |
| ClockFormat.ShortBuddhistYear | routes/index.js:42-44 | the short year is one or two characters; its digits are read back in `ShortBuddhistYearDigits` |
| ClockFormat.LastTwoDigits | routes/index.js:42-44 | from ten on, the last two characters of `String(n)` are two digits reading back as `n % 100` |
| ClockFormat.ShortBuddhistYearDigits | routes/index.js:42-44 | the short year is two digits reading back as the Buddhist year (Gregorian plus 543) modulo 100 |
| ClockFormat.FormatDate | routes/index.js:38-46 | `formatDate` is at least seven characters, at most eight for a day and month below 100; the layout is in `FormatDateLayout` |
| ClockFormat.FormatDateLayout | routes/index.js:38-46 | `formatDate` is `DD.MM.YY`: dots at 2 and 5, the day, `getMonth() + 1`, and the Buddhist year modulo 100 |
| ClockFormat.ClockMessage | routes/index.js:56-58 | definition: time, a comma, date; its layout is in `ClockMessageLayout` |
| ClockFormat.ShouldResetUsb | routes/index.js:60 | definition: second 59 and below 20 ms; used by `DisplayClock`, `GetClock` and `ClockTick` |
| ClockFormat.ClockMessageLayout | routes/index.js:56-58 | the clock message is 17 characters with the comma at 8, so its two lines are exactly the time and the date |
| SerialPort.ShiftText | services/serialPort.js:48-51 | the window never exceeds the 10-character display width |
| SerialPort.ShiftTextWindow | services/serialPort.js:48-51 | the window is the slice of `text + PADDING + text` from the position: full width while it fits, cut at the end, empty past it |
| SerialPort.ShiftTextIsCyclic | services/serialPort.js:48-51 | within a period, the window reads the cyclic text `text + PADDING` from the position, wrapping seamlessly |
| SerialPort.SplitLines | services/serialPort.js:35 | definition: the first two parts of `split(',')`, the second undefined when missing; its shape is in `SplitLinesShape` and `SplitTwoLines` |
| SerialPort.SplitLinesShape | services/serialPort.js:35 | neither line holds a comma; `line2` is undefined exactly when the message has no comma, and then `line1` is the whole message |
| SerialPort.SplitTwoLines | services/serialPort.js:35 | `line1,line2` built from comma-free lines destructures back into those two lines |
| SerialPort.Period | services/serialPort.js:44 | the scroll period is at least the padding length, so the modulo is well defined |
| SerialPort.PeriodIgnoresSecondLine | services/serialPort.js:44 | for every message with a first line, the period is that line's length plus the padding, whatever follows the comma |
| SerialPort.Advance | services/serialPort.js:44 | the next position stays below the period: one more, or 0 after the last position |
| SerialPort.Frame | services/serialPort.js:35-38 | definition of the text one tick writes; its cases are in `FrameOfTwoLines` and `FrameOfOneLine` |
| SerialPort.FrameOfTwoLines | services/serialPort.js:35-38 | a two-line frame is both lines shifted by the same position, joined by a comma |
| SerialPort.FrameOfOneLine | services/serialPort.js:35-38 | a comma-free message scrolls as one line, and the frame holds no comma |
| SerialPort.PositionAfter | services/serialPort.js:33-45 | the position after any number of ticks stays below the period |
| SerialPort.PositionAfterTicks | services/serialPort.js:33-45 | after `n` ticks of a fresh scroll the position is `n` modulo the period |
| SerialPort.ScrollIsPeriodic | services/serialPort.js:33-45 | the scroll repeats exactly every period: same position, same frame written |
| SerialPort.ScrollSpellsFirstLine | services/serialPort.js:34-45 | over one period the frames' first characters spell `line1` followed by the padding |
| SerialPort.SerialPortService.constructor | services/serialPort.js:8-11 | the service starts with no interval and nothing written |
| SerialPort.SerialPortService.HasDevicePath | services/serialPort.js:20 | definition: `config.serialPortFile` is non-empty; it gates the writes of `DisplayMessage` and `ScrollTick` |
| SerialPort.SerialPortService.StopDynamic | services/serialPort.js:53-58 | the interval is cleared and no scroll timer is left alive; without one nothing changes |
| SerialPort.SerialPortService.DisplayMessage | services/serialPort.js:13-23 | the scroller is always stopped; the message is written as it is only in production mode with a device path |
| SerialPort.SerialPortService.DisplayDynamicMessage | services/serialPort.js:25-34 | the old scroller is stopped; outside development a fresh interval starts on the message at position 0; nothing is written yet |
| SerialPort.SerialPortService.ScrollTick | services/serialPort.js:34-45 | a tick writes the frame at the current position when a device path is set, and advances the position |
| Routes.ViewModeName | routes/index.js:94-209 | definition: the mode strings the handlers assign; `ViewModeNamesDistinct` shows no two modes share a name |
| Routes.ViewModeNamesDistinct | routes/index.js:94-209 | distinct modes are sent under distinct names |
| Routes.Field | routes/index.js:149-150 | definition: a missing key reads as empty; used by `FieldOr` and the plate lemmas |
| Routes.FieldOr | routes/index.js:96-98 | `x \|\| fallback`: the fallback exactly when the field is missing or empty, the field otherwise |
| Routes.MemberColour | routes/index.js:151-152 | green if and only if `isMember` is exactly the string `true` |
| Routes.PlateRecord | routes/index.js:95-99 | `/plateInfo` persists exactly the three plate keys, each the request's value or empty |
| Routes.PlateMessage | routes/index.js:101 | definition: `letter-number`; written once by `GetPlateInfo` |
| Routes.ChargeRecord | routes/index.js:113-118 | `/charges` persists the plate keys and an amount that is never empty |
| Routes.ChargeMessage | routes/index.js:120-121 | definition; its shape is in `ChargeMessageLines`, its scroll in `ChargeScrollsTwoLines` |
| Routes.ChargeRecordFields | routes/index.js:113-118 | the persisted plate letter, number and amount are the request's (defaulted) values |
| Routes.ChargeMessageLines | routes/index.js:120-121 | the charge message is the letter and number, a comma, a baht sign and the defaulted amount |
| Routes.PlateFromRequest | routes/index.js:192-193 | definition: request value, else persisted value, else empty; `RequestPlateWins` and `ThankYouReusesPersistedPlate` state its precedence |
| Routes.LicensePlate | routes/index.js:153 | the plate is non-empty if and only if both parts are, and then it is letter followed by number |
| Routes.VisitorPlate | routes/index.js:196 | definition: the plate of `/welcome` and `/thankyou`; its properties follow from `LicensePlate` |
| Routes.WelcomeMessage | routes/index.js:156-158 | definition: the message `/welcome` builds before its call throws; `GetWelcome` shows it never reaches the device |
| Routes.ThankYouMessage | routes/index.js:198 | definition; its scroll is in `ThankYouScrollsTwoLines`, `ThankYouReusesPersistedPlate` and `HalfPlateIsBlank` |
| Routes.RequestPlateWins | routes/index.js:192-196 | a plate given in the request wins over the persisted one |
| Routes.ThankYouReusesPersistedPlate | routes/index.js:192-198 | `/thankyou` without plate fields shows the plate an earlier `/plateInfo` persisted |
| Routes.HalfPlateIsBlank | routes/index.js:193-198 | with the letter or the number missing everywhere, the plate line is empty and the period is the padding alone |
| Routes.ChargeScrollsTwoLines | routes/index.js:120-122 | `/charges` scrolls the plate over the baht amount, with the period set by the plate alone |
| Routes.ChargeWithoutAmount | routes/index.js:117-121 | without an amount the second line is the double baht sign `฿฿0` |
| Routes.ThankYouScrollsTwoLines | routes/index.js:196-198 | `/thankyou` scrolls the plate over the thanks, both at the same position |
| Routes.ForbiddenSecondLineRunsOut | routes/index.js:214 | the `/forbidden` text has period 27, set by its first line, and at position 24 its second line is already empty |
| Routes.Snapshot | routes/index.js:253 | the snapshot is the persisted fields plus `viewMode` set to the current mode's name, other keys kept |
| Routes.DisplaySession.constructor | routes/index.js:8-11 | the module loads in `CLOCK` mode with nothing persisted and no timer |
| Routes.DisplaySession.ClearExistingTimers | routes/index.js:14-23 | both route timers are cleared and none is left alive; with neither set nothing changes |
| Routes.DisplaySession.DisplayClock | routes/index.js:50-68 | a due USB reset is counted; unless it throws, the clock message goes through `displayMessage`; if it throws, the device is untouched |
| Routes.DisplaySession.GetIndex | routes/index.js:74-89 | the route timers are cleared and the page rendered; mode, persisted fields and device untouched |
| Routes.DisplaySession.GetPlateInfo | routes/index.js:91-107 | `PLATE` mode, exactly the plate fields persisted, `letter-number` written once, no timer left, 204 |
| Routes.DisplaySession.GetCharges | routes/index.js:109-127 | `CHARGE` mode, the charge record persisted, a fresh scroller on the charge message, nothing written yet, 204 |
| Routes.DisplaySession.GetClock | routes/index.js:129-139 | `CLOCK` mode, nothing persisted, one clock write at once unless the reset throws, one fresh clock interval as the only route timer, 204 |
| Routes.DisplaySession.StartClockInterval | routes/index.js:70-71 | the fresh interval handle is stored, and it is the only live route timer |
| Routes.DisplaySession.ClockTick | routes/index.js:71 | each tick writes the clock message unless the due reset throws, and leaves the route state alone |
| Routes.DisplaySession.GetWelcome | routes/index.js:144-163 | timers cleared, `WELCOME` mode, then 500 with the `TypeError` message; nothing persisted, the device untouched |
| Routes.DisplaySession.GetBlacklisted | routes/index.js:165-184 | `BLACKLIST` mode, the denial written at once, one fresh follow-up timeout as the only timer, 204 |
| Routes.DisplaySession.FireBlacklistTimeout | routes/index.js:175-178 | the follow-up writes the shorter text and forgets its handle, leaving no timer |
| Routes.DisplaySession.GetThankYou | routes/index.js:187-203 | `THANK_YOU` mode, a fresh scroller on the plate (request or persisted) and the thanks, 204 |
| Routes.DisplaySession.GetForbidden | routes/index.js:206-219 | `FORBIDDEN` mode, a fresh scroller on the fixed two-line denial, 204 |
| Routes.DisplaySession.GetResetUsb | routes/index.js:225-232 | one USB reset; 204 when it succeeds, 500 with its error otherwise; nothing else changes |
| Routes.DisplaySession.GetClear | routes/index.js:234-242 | route timers cleared, then 500 with the `TypeError` message; mode, persisted fields and device untouched |
| Routes.DisplaySession.ScrollTick | services/serialPort.js:34-45 | a scroll tick seen from the session writes one frame, advances the position and keeps at most one timer alive |
| Routes.DisplaySession.SendUpdate | routes/index.js:251-254 | `sendUpdate` stores `viewMode` into `persistedData` and sends exactly that snapshot; timers, reset count and device are unchanged |

## Left out

- Shell, file-system and console I/O are not modelled:
  - `exec` of `echo "…" > device`, including the shell quoting and the trailing newline `echo` adds;
  - the sysfs writes of `resetUSB`;
  - `console.log` and `console.error`.

  A device write is an entry in the ghost `writes` log, and a USB reset is a `UsbReset` parameter that says whether it throws.
- SerialPort.SerialPortService.DisplayMessage: records the text handed to `echo`, not the shell command, so a message holding a double quote or a shell metacharacter is not modelled as breaking the command.
- `configurePort` and `checkPort` are left out. They only run `stty` and test file access, and neither affects the display state.
- The wall clock and the time zone are parameters. `new Date()` and the shift to UTC+7 come in as a `BangkokTime` with the fields a `Date` reports.
- Real time and scheduling are left out, and with them the delays of 150 ms (scroll), 1000 ms (clock) and 30000 ms (blacklist follow-up). Each firing of a timer is a method the event loop calls. Node runs each callback to completion, so the methods do not interleave.
- The `/events` stream is modelled only through its `sendUpdate` step. The HTTP headers, the JSON encoding, the one-second interval and the close handler are left out.
- The page data of the `/` route is left out: which plate and fee fields the template shows. Only its state change is modelled (`GetIndex`).
- `app.js`, `config/config.js` and `display.js` are not part of this model. `config.isDevelopment` and `config.serialPortFile` are fields of the service.
- The colour protocol is left out, because the service never receives the colour the handlers compute.
- Repeated query parameters are left out. Express can give an array for a repeated parameter, and here every query value is a single string.
- Strings are sequences of characters, and the model counts lengths and positions in characters. JavaScript counts UTF-16 code units. The two agree inside the Basic Multilingual Plane, which holds every fixed text of the display. The model assumes the query values (`plateLetter`, `plateNumber`, `amount`) lie there too. For a query value outside that plane, such as an emoji, the model's period and scroll windows differ from JavaScript's: `line1.length` counts two units for such a character, and `substring` can split its surrogate pair.
- Routes.DisplaySession.GetClock: promises `Exclusive()` only when the USB reset is not due or succeeds. When it throws, an earlier scroll interval survives beside the clock interval, as the code allows.
- Routes.DisplaySession.ClockTick: the same condition on `Exclusive()` as `GetClock`, for the same reason.
