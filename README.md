# bato, modelled in Dafny

bato is a small laptop battery notifier. Once per tick it reads the battery's `uevent` file under
`/sys/class/power_supply/<battery>/`. From that file it works out the charge level in percent and
the status word, and feeds the reading to a five-state machine: Charging, Discharging, Full, Low
and Critical. When the machine enters a state, it sends that state's configured desktop
notification, if there is one.

This project models that core and proves properties of it:

- `FsmEngine.dfy`: the generic state machine of `src/fsm.rs`.
  - It is a class with a current key, a fixed handler map, and a ghost trace of every hook call.
  - A handler is a record of three hooks. `enter` and `exit` return the effects they perform.
  - So `Shift` returns exactly what one tick emitted.
- `Battery.dfy`: the battery state set of `src/battery.rs`.
  - The five handlers become a dispatch on a closed `State` type.
  - Each one has the `next_state` decision table.
  - `enter` emits one `Sent(handle, payload)` record per call of the notifier's `send`.
  - `exit` does nothing.
  - `create_fsm` registers the handlers.
  - Four client methods replay four end-to-end scenarios against `Shift`.
- `Settings.dfy`: payload conversion and configuration normalisation from `src/lib.rs`.
  - `Notification::try_from` rejects NUL characters.
  - `Config` is a class, and `Normalize` fills in missing urgencies in place.
- `Bato.dfy`: the monitor of `src/lib.rs`.
  - It builds the attribute names and the uevent path.
  - It chooses between the ENERGY and CHARGE units.
  - It parses the `KEY=value` lines and scans them with first-match-wins.
  - It turns the values into a level, rounded down, with the `u32` conversion error.
  - The `Bato` class has `with_config`, `start` and `update`. One `update` is one tick through the machine.
- `Text.dfy`: the Rust string operations the parsing relies on, written out.
  - `starts_with`, `contains`, `split('=').nth(1)`, and `str::parse::<i32>` with the decimal `Display` it inverts.
- `Ints.dfy`: the integer widths involved.
  - `i32`, `u32`, `u64`, and the sign-extending `i32 as u64` cast.

Some facts the proofs establish:

- A tick sends at most one notification.
  - It sends one only when the state changes, and then exactly the new state's payload.
- No state ever hands over to itself.
- A level at or below the critical threshold is never classified as Low.
- Repeating a reading after a transition can move the machine a second time in exactly one case.
  - The first hop was Full to Discharging, at a level at or below a threshold.
  - The next tick then goes on to Low or Critical and sends that state's payload if one is configured.
  - In every other case the repeated reading changes nothing and sends nothing.
  - Whatever the start, a constant reading stops moving the machine after at most two ticks.
- Every `i32` as displayed is read back by the line parser.
- The scan keeps the first match for each value.
- A present value between 0 and the capacity gives a level between 0 and 100.

The capacity scan follows the evidently intended exact-key match, not the prefix match as written.
See "## Findings". The prefix match is modelled as `Bato.ParseAttribute`, and the shadowing it
causes is proved about it.

## Model

| member | source | states |
|---|---|---|
| FsmEngine.Fsm.constructor | src/fsm.rs:21-26 | The machine starts at the initial key with the handler map exactly as given, and no hook has run. |
| FsmEngine.Fsm.SetState | src/fsm.rs:28-32 | Runs the current handler's exit, then the new handler's enter, on the same context, and moves to the new key. The result is exactly the exit effects followed by the enter effects. The map is unchanged. Both keys must be in the map, because a missing one is an `unwrap` panic. |
| FsmEngine.Fsm.Shift | src/fsm.rs:34-43 | Asks the current handler for the next key. On none, nothing changes but the query in the trace, and nothing is emitted. On some `s`: exactly one exit, then one enter, on the same context; the key becomes `s`; the effects are exit's then `s`'s enter's. The handler map never changes, and there is no chaining. |
| Battery.NextState | src/battery.rs:47-128 | The five decision tables, given read by target. Each clause states in both directions which statuses and levels from which states lead into Charging, Discharging, Full, Low or Critical. It never returns the current state. Low is chosen only above the critical threshold. |
| Battery.Exit | src/battery.rs:57-130 | Every `exit` hook sends nothing. |
| Battery.Enter | src/battery.rs:41-121 | Sends exactly the state's configured payload through the reading's handle when it is present, and sends nothing when it is absent. |
| Battery.States | src/battery.rs:133-139 | The handler map has exactly the five states as keys, each mapped to its own handler. |
| Battery.CreateFsm | src/battery.rs:133-141 | A fresh machine running the battery handlers. Every state has a handler, it starts in Discharging, and no hook has run. |
| Battery.AtMostOneNotification | src/fsm.rs:34-43 | One tick sends at most one notification. It sends only when the state changes, and then sends the new state's payload. An unchanged state sends nothing. |
| Battery.RepeatedReadingAfterTransition | src/battery.rs:87-93 | After a transition, the same reading moves the machine again exactly when the first hop was Full to Discharging at or below a threshold. Otherwise it sends nothing. |
| Battery.SettlesWithinTwoTicks | src/battery.rs:47-128 | From any state, a constant reading causes no transition on the third tick. |
| Settings.ToCString | src/lib.rs:74 | `CString::new` succeeds exactly on NUL-free strings and keeps them unchanged. Otherwise it fails with "NulError". |
| Settings.OptionalCString | src/lib.rs:75-78 | An absent string stays absent. A present one converts as `CString::new` does. |
| Settings.TryFrom | src/lib.rs:73-89 | The conversion succeeds exactly when the summary, the body and the icon are NUL-free, and then keeps all four fields. Otherwise it fails with "NulError". |
| Settings.TryFromConfigured | src/lib.rs:83-88 | Every converted payload converts back to itself. |
| Settings.WithDefaultUrgency | src/lib.rs:140-144 | A present payload ends with an urgency: its own if it had one, the default otherwise. Nothing else in it changes, and an absent payload stays absent. |
| Settings.WithDefaultUrgencyIdempotent | src/lib.rs:139-156 | Supplying default urgencies twice is the same as once. |
| Settings.Config.constructor | src/lib.rs:119-136 | The configuration record holds exactly the given fields. |
| Settings.Config.Normalize | src/lib.rs:139-156 | Critical gets the default urgency Critical; low and full get Normal. Charging and discharging are left untouched, and only the three payload fields may change. |
| Ints.I32AsU64 | src/lib.rs:232-233 | The cast is congruent to the value modulo 2^64, lies in `u64` range, and is the identity on non-negative values. |
| Text.ContainsIffOccurs | src/lib.rs:280-300 | The `contains` scan succeeds exactly when the pattern occurs at some position. |
| Text.SplitSecond | src/lib.rs:259 | `split('=').nth(1)` is absent exactly when there is no `=`, and a present piece holds no `=`. |
| Text.SplitSecondOf | src/lib.rs:259 | For `key=value`, with or without a further `=` piece, the second piece is exactly `value`. |
| Text.ParseI32 | src/lib.rs:261 | An accepted string is a digit string, or `+` or `-` followed by at least one digit. The value is the digits' decimal value, negated after `-`, and lies in `i32` range. Conversely, every such string whose value is in range is accepted with that value. |
| Text.ParseI32Signed | src/lib.rs:261 | Every `i32` parses back from its decimal display. |
| Bato.FullAttribute | src/lib.rs:174-181 | The capacity attribute is FULL_DESIGN unless `full_design` is given as false, and is FULL exactly then. |
| Bato.BatName | src/lib.rs:169-173 | The battery name is the configured one, or BAT0 when none is configured. |
| Bato.UeventPath | src/lib.rs:182 | The uevent path is the sysfs directory, then the battery name, then `/uevent`. The name can be read back out of the path. |
| Bato.UeventPathInjective | src/lib.rs:182 | Two configurations share a uevent path exactly when they name the same battery. |
| Bato.AttributeName | src/lib.rs:184-185 | An attribute name is `POWER_SUPPLY_`, the unit, `_`, then the attribute. Unit and attribute can be read back out of it. |
| Bato.ParseAttribute | src/lib.rs:256-266 | As written: for a readable line that starts with the attribute and holds an `=`, the result is exactly the `i32` parse of the piece after the first `=`, so a piece that does not parse gives nothing. It gives nothing for a read error, another prefix, or no `=`. |
| Bato.ParseAttributeLine | src/lib.rs:256-266 | A line `key=<i32>` reads back as that value for every attribute the key starts with. |
| Bato.ParseAttributeExact | src/lib.rs:256-266 | Corrected: a value only when the line's key before the first `=` is the attribute itself. On every readable line that starts with the attribute followed by `=`, it gives exactly the as-written parser's result; on every other line it gives nothing. |
| Bato.ParseAttributeExactLine | src/lib.rs:256-266 | A line `key=<i32>` reads back as that value for its own key. |
| Bato.ParseStatus | src/lib.rs:268-275 | For a readable line that starts with POWER_SUPPLY_STATUS, the result is exactly `split('=').nth(1)`: the piece after the first `=`, up to any next `=`. So a piece is returned exactly when the line also holds an `=`, and it holds no `=`. Every other line gives nothing. |
| Bato.ParseStatusLine | src/lib.rs:268-275 | `POWER_SUPPLY_STATUS=<word>` reads back as the word. |
| Bato.FirstMatch | src/lib.rs:210-220 | The first-match rule finds nothing exactly when no line, checked from the first, is accepted. |
| Bato.FirstMatchIsFirst | src/lib.rs:210-220 | The scan finds nothing exactly when no line is accepted. Otherwise it yields the value of an accepted line with no accepted line before it. |
| Bato.FirstMatchSnoc | src/lib.rs:211-219 | One more line keeps an earlier match, and otherwise takes what that line yields. |
| Bato.Scan | src/lib.rs:221-227 | The scan result carries two values in `i32` range. |
| Bato.ParseAttributes | src/lib.rs:204-228 | The one-pass loop computes the first-match scan. A file that cannot be opened passes its error on. If any of the three values is missing, the error names the file. |
| Bato.FindAttributePrefix | src/lib.rs:277-309 | ENERGY exactly when all three energy keys with `=` occur. CHARGE exactly when they do not all occur and all three charge keys do. Otherwise an error naming the path, and a read error is passed on. |
| Bato.ChosenAttributesPresent | src/lib.rs:183-185 | The NOW attribute and the configured capacity attribute of the chosen unit both occur as keys in the file. |
| Bato.FloorDiv | src/lib.rs:234 | `u64` division rounds down: the quotient times the divisor lies within one divisor below the dividend. |
| Bato.BatteryLevel | src/lib.rs:231-234 | The level is the floor of 100·energy/capacity on the `u64` casts. It is the conversion error exactly when that floor does not fit in `u32`. |
| Bato.LevelIsPercentage | src/lib.rs:231-234 | With 0 ≤ energy ≤ capacity and capacity > 0, the computation is defined and yields a level of at most 100. |
| Bato.FullIsPrefixOfFullDesign | src/lib.rs:28-29 | For every unit, the FULL key followed by `_DESIGN` is the FULL_DESIGN key. |
| Bato.FullDesignShadowsFull | src/lib.rs:258 | As written, the FULL scan over a FULL_DESIGN line followed by a FULL line yields the design value. |
| Bato.ExactKeyNotShadowed | src/lib.rs:258 | With the exact-key parser, the same two lines yield the FULL value. |
| Bato.TickData | src/lib.rs:235-246 | The reading handed to the machine carries the level, the status and the handle, plus the thresholds and the five payloads of the configuration. |
| Bato.Bato.constructor | src/lib.rs:186-192 | The monitor holds the given path, attribute names and machine, with a null notifier handle. |
| Bato.Bato.WithConfig | src/lib.rs:168-193 | Passes on a prefix error. Otherwise it yields a fresh monitor with the uevent path of the configured battery, the unit's NOW and capacity attribute names, a null handle, and a fresh battery machine in Discharging. |
| Bato.Bato.Start | src/lib.rs:195-202 | A null handle from the native init is the "libnotilus, fail to init" error and changes nothing. A non-null handle is kept. |
| Bato.Bato.Update | src/lib.rs:230-249 | A file error, a scan error or a conversion error is returned, with the machine unmoved and nothing sent. Otherwise the machine takes exactly one step on the reading built from the level, the status and the configuration. At most one notification is sent, and only on a state change. |

## Left out

- `src/notify.rs` and libnotilus are not part of this model. They are the foreign calls into libnotify.
  - `send` is modelled as the emitted `Sent(handle, payload)` record.
  - The notifier handle is an opaque value that is never inspected.
  - The default urgency `send` applies and the actual display are not modelled.
- `Bato.close` is not modelled. It is a foreign call.
- `src/main.rs`, the endless poll loop with its sleep, is not modelled.
  - The tick rate is carried in `Settings.Config` but never used.
- `Config::new` is not modelled: reading `HOME` and `XDG_CONFIG_HOME`, the file, and the YAML decoding.
  - `Settings.Config.constructor` stands for the record it builds.
  - `Settings.TryFrom` is the per-payload conversion it applies.
- File reads are not modelled (`File::open`, `BufReader::lines`, `fs::read_to_string`). Their outcomes are parameters instead.
  - A file is a `Result` of lines.
  - Each line is a `Result` of text, so per-line read errors are kept.
  - The prefix search and the scan read the file separately, as in the program.
- Bato.Bato.Start: `init_libnotilus` is a parameter. The model receives the handle it returned.
- FsmEngine.Fsm.Shift: the hooks cannot change the handler or the context in place.
  - The program's hooks take `&mut` access but never use it.
  - Hooks act only through the effects they return.
- Bato.BatteryLevel: a zero capacity panics on division, so it is a precondition.
  - `100 * energy` overflowing `u64` is also a precondition.
  - That overflow panics in debug builds and wraps in release builds; the wrapped release result is not modelled.
  - Negative values are cast to `u64` by sign extension, as in the program.
- Bato.Bato.Update: requires the same no-panic condition of `Bato.LevelDefined` on the scanned values, and reads the NOW and capacity values through the exact-key scan of `Bato.Scan`, not the prefix match as written.
- Bato.Scan and Bato.ParseAttributes read the NOW and capacity values with the corrected exact-key parser. The prefix match as written is `Bato.ParseAttribute`; see "## Findings".

## Findings

| source | as written | input that shows it | evidently intended | confidence | as-written member | corrected member |
|---|---|---|---|---|---|---|
| src/lib.rs:258 | `parse_attribute` accepts any line that merely starts with the attribute name. So with `full_design: false`, the search for `POWER_SUPPLY_<unit>_FULL` also accepts the `POWER_SUPPLY_<unit>_FULL_DESIGN=` line. | A uevent file listing `POWER_SUPPLY_ENERGY_FULL_DESIGN=5000000` before `POWER_SUPPLY_ENERGY_FULL=4000000` (the kernel's order) with `full_design: false` yields capacity 5000000, the design value. | Match the key exactly, so that the option selects the actual full capacity. | high; not executed | Bato.FullDesignShadowsFull | Bato.ExactKeyNotShadowed |
