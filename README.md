# Wi-Fi station connection handler, modelled in Dafny

The ESP-IDF Wi-Fi station example starts the radio in station mode. It
connects to one access point and retries a bounded number of times when the
link drops. It reports the result to the startup task through two bits of a
FreeRTOS event group. All of the decision logic sits in `event_handler`:

- **STA_START**: one `esp_wifi_connect` call.
- **STA_DISCONNECTED**: while the retry counter is below the configured maximum, one more
  connect call and the counter goes up by one. Otherwise `WIFI_FAIL_BIT` is set.
- **IP_EVENT_STA_GOT_IP**: the counter goes back to 0 and `WIFI_CONNECTED_BIT` is set.
- **Any other Wi-Fi event**: no effect.

The startup task waits for either bit without clearing it. It then reports
"connected" if CONNECTED is set, "failed" if only FAIL is set, and
"unexpected event" otherwise.

The project has two modules:

- `station_model.dfy`, module `StationModel`, is the value-level model.
  - `Event` is what the handler receives.
  - `Station` holds the counter, the two bits and the number of connect calls.
  - `Step` is one handler call and `Run` is a sequence of calls in delivery order.
  - `EventBits` is the event-group word and `Decide` is the caller's decision.
  - The lemmas state what the handler guarantees over any run.
- `event_handler.dfy`, module `StationHandler`, holds the class `WifiEventHandler`.
  - Its fields are the file-scope state the firmware mutates: `retryNum` for
    `s_retry_num`, and `connectedBit` and `failBit` for the two event-group bits.
  - The constant `maxRetry` is the build-time maximum.
  - The ghost counter `connectCalls` counts `esp_wifi_connect` calls.
  - `Handle` updates these in place. It is proved to perform exactly one
    `Step` and to keep `retryNum <= maxRetry`.
  - `ReadOutcome` is the caller's decision on the bits.
  - Two client methods run the two concrete scenarios through the class.

The model follows what the code does, including these quirks:

- There is no terminal failed phase. An address that arrives after FAIL is set
  still sets CONNECTED, so both bits can be set. The caller then reports
  "connected".
- A disconnect after a success retries with the counter starting again at 0.
- Further disconnects at the limit only set FAIL again, with no connect call.

The handler has no more behaviour than that:

- It has no phase variable and no state in which it ignores events.
- Nothing guards against a second start event; each one issues a connect call.
- The wait has no timeout: it blocks with `portMAX_DELAY` (station_example_main.c:156).
- The return value of `esp_wifi_connect` is discarded (station_example_main.c:81, 84);
  a failing call is not counted as a disconnect.
- Retries after a success use the same counter, because the success resets it
  to 0 (station_example_main.c:95).

## Model

| member | source | states |
|---|---|---|
| `StationModel.EventBits` | station_example_main.c:64-65 | The word has bit 0 set exactly when CONNECTED is, bit 1 set exactly when FAIL is, and no other bit set |
| `StationModel.Step` | station_example_main.c:72-98 | One handler call keeps the counter within the maximum, never clears a bit, and issues at most one connect call. FAIL becomes set only on a disconnect with the counter at the maximum. CONNECTED becomes set only on an acquired address |
| `StationModel.Run` | station_example_main.c:72-98 | Over any sequence of events from a state with the counter within the maximum (such as the fresh state with counter 0), the counter stays within the maximum, because it is only incremented while strictly below. Bits are never cleared, and there is at most one connect call per event |
| `StationModel.RetriesBelowLimit` | station_example_main.c:83-86 | While the budget lasts, k disconnects issue exactly k connect calls and raise the counter by k. Both bits are unchanged |
| `StationModel.DisconnectsAtLimit` | station_example_main.c:87-88 | At the maximum, any number of disconnects issue no connect call and leave the counter and CONNECTED unchanged. They only set FAIL |
| `StationModel.ExhaustionFails` | station_example_main.c:80-88 | From a fresh state with maximum N, STA_START plus N+1 disconnects ends with FAIL set, CONNECTED clear, counter N and N+1 connect calls. The caller then reports failure |
| `StationModel.ConnectsWithinBudget` | station_example_main.c:80-96 | From a fresh state with maximum N, STA_START plus k <= N disconnects plus an address ends with counter 0, CONNECTED set, FAIL clear and k+1 connect calls. The caller then reports connected |
| `StationModel.RetryAfterSuccess` | station_example_main.c:95 | After an acquired address, up to the maximum number of disconnects are retried again. Each issues a connect call while CONNECTED stays set |
| `StationModel.ConnectedAfterFail` | station_example_main.c:91-96 | An address acquired after FAIL is set still sets CONNECTED, so both bits are set and the caller reports connected |
| `StationModel.ConnectAccounting` | station_example_main.c:80-85 | Without an acquired address, the counter never decreases. The connect calls issued equal the STA_START events plus the increase of the counter |
| `StationModel.ConnectBudget` | station_example_main.c:83-88 | Without an acquired address, connect calls are bounded by one per STA_START plus the remaining retry budget, however many disconnects arrive |
| `StationModel.Decide` | station_example_main.c:152-168 | On any bits word: CONNECTED gives connected whatever else is set; failed exactly when FAIL is set without CONNECTED; the unexpected-event branch exactly when the word would not have released the wait, so a released wait never reaches it |
| `StationModel.WaitReleased` | station_example_main.c:152-156 | The wait on CONNECTED and FAIL without wait-for-all is released exactly when either of the two bits is set, whatever other bits hold |
| `StationModel.OutcomeOfFlags` | station_example_main.c:160-168 | The caller reports connected exactly when CONNECTED is set, even if FAIL is also set. It reports failed exactly when only FAIL is set, and unexpected exactly when neither is set |
| `StationModel.ConnectedOutcomeStable` | station_example_main.c:152-160 | The bits are not cleared, so once the bits read as connected they read as connected after any further events |
| `StationModel.ReleaseStable` | station_example_main.c:152-156 | Once the wait is released it stays released after any further events, and each bit that was set is still set |
| `StationHandler.WifiEventHandler.constructor` | station_example_main.c:69 | The counter starts at 0, both bits are clear, no connect call has been issued, and the object invariant holds |
| `StationHandler.WifiEventHandler.Handle` | station_example_main.c:72-98 | The new state is one `Step` of the old state, and the counter stays within the maximum. Per event: STA_START issues one connect call and changes nothing else. A disconnect below the limit issues one connect call and adds one to the counter, with the bits unchanged. A disconnect at the limit sets FAIL and changes nothing else. An address resets the counter, sets CONNECTED, keeps FAIL and issues no connect call. Any other event changes nothing. Bits are only ever set |
| `StationHandler.WifiEventHandler.ReadOutcome` | station_example_main.c:160-168 | Without changing the state, returns connected exactly when CONNECTED is set, failed exactly when only FAIL is set, and unexpected otherwise |
| `StationHandler.FailScenario` | station_example_main.c:80-90 | With maximum 3, STA_START and four disconnects through the class leave the counter at 3, and the caller reports failure |
| `StationHandler.ConnectScenario` | station_example_main.c:80-96 | With maximum 3, STA_START, one disconnect and an address through the class leave the counter at 0, and the caller reports connected |

## Left out

- Non-volatile storage initialisation, with its erase-and-retry in `app_main`. This is storage-driver setup with no bearing on the handler.
- Network interface, event loop and Wi-Fi driver initialisation, mode, configuration and start calls, and handler registration. These are foreign driver calls whose failures abort through `ESP_ERROR_CHECK`.
- `esp_wifi_connect` is modelled only by the number of times it is called, as a ghost counter. Its return value is ignored by the code.
- Authentication-mode and WPA3 SAE selection macros, and the construction of `wifi_config_t`. These are static configuration with no logic.
- The blocking `xEventGroupWaitBits` call itself. It is a concurrency primitive. Only the decision taken on the bits it returns is modelled, together with the fact that the bits are never cleared.
- Logging and IP address formatting. The acquired address is carried by `GotIp` but never stored.
- `maxRetry` is a `nat`. The build-time maximum is an `int` configuration value, and a negative setting is not modelled: with one, the first disconnect would set FAIL.
- Concurrency between the handler and the waiting task is not modelled. Events are handled one at a time in delivery order.
- Event bases and numeric event ids are not modelled. Events are distinguished by kind, and `Other` stands for every Wi-Fi event id the handler does not match.
