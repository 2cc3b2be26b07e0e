# WNCC NASA fellowship code: a verified model of its decision logic

The repository collects the software of several student projects:

- **Aquaponics** (Flask and browser). A web page shows a fish tank's MJPEG camera through a server-side relay. The server keeps one relay per camera URL, and each viewer drains a queue fed by that relay. The page's `StreamManager` reconnects with exponential backoff while the page is visible and focused.
- **FishCam** (Python utilities). A log manager lists, tails, searches and cleans the rotated sensor, e-mail and stream logs, behind interactive menus. A speed-test logger averages three runs. A camera test probes video devices and the resolutions they accept.
- **Tyr rover** (Python and CircuitPython). Two gamepad scripts map the right stick to wheel speeds, steering angles and I2C register writes for the motor controller. The encoder scripts convert encoder counts to degrees and run timed motor movements.

This project models that logic in Dafny and proves what the code promises.

- **Stateful parts become classes.** The relay registry, a relay's client set, the browser stream manager, the rover controller and the motor driver are classes whose methods change fields.
- **Loops become methods with loops.** The viewer loop, warm-up wait, camera probing, resolution scan, log search, log cleaning, menu prompts, speed-test runs and encoder polling are each proved against a specification function.
- **Pure computations become functions.** Name classification, tail slicing, matching, unit conversions and scaling are functions with lemmas about them.

Everything the programs read from the outside world becomes an input:

- files and their modification times;
- keyboard input, as the sequence of lines typed;
- clock and encoder readings;
- the camera, as an oracle from requested to reported settings;
- the relay's queue, as a sequence of events;
- the speed-test runs;
- the turning-circle geometry.

How Python and JavaScript values are represented:

- Python floats are real numbers.
- `int()` on a float truncates toward zero (`Numeric.Trunc`).
- Python's `//` with a positive divisor is Dafny's `/`.

Modules:

- `Wrappers`: `Option` and `Result`.
- `Numeric`: truncation, sums and means.
- `Strings`: substring search, ASCII `lower`/`strip`/`rstrip`, and decimal printing and parsing.
- `Lexico`: `sorted()` on strings.
- `RelayInterface`: the relay's interface.
- `RelayRegistry`: `get_media_relay`, `relay_status`, `cleanup_relays`.
- `StreamProxy`: the `stream_proxy` generator.
- `StreamManagerModel`: `stream.js`.
- `LogManager` and `LogMenus`: `log_manager.py`.
- `SpeedtestLogger`.
- `JoystickScaling`: the stick scaling shared by both gamepad scripts.
- `TyrController` and `TryPyps4`: the two gamepad scripts.
- `CameraTest`.
- `MotorEncoder`: the CircuitPython motor-with-encoder driver of `test_motor_and_encoder.py`, its class and its demonstration.
- `ReadSingleEncoder`.

## Model

| member | source | states |
|---|---|---|
| Numeric.Trunc | Tyr/GamePad_Control/try_pyps4.py:25 | `int()` of a float rounds toward zero: the result is the whole number between 0 and the value, less than 1 away from it |
| Numeric.TruncOdd | Tyr/GamePad_Control/commented_tyr_controller_code.py:115-118 | truncation commutes with negation |
| Numeric.TruncMonotone | Tyr/GamePad_Control/try_pyps4.py:25 | truncation preserves order |
| Numeric.MeanBounds | FishCam/speedtest_logger/speedtest_logger.py:146-148 | a mean of values within [lo, hi] is within [lo, hi] |
| Numeric.MeanBetweenExtremes | FishCam/speedtest_logger/speedtest_logger.py:146-148 | a mean lies between some element and some element of the list |
| Strings.Contains | Aquaponics/main_app.py:131 | `in` on strings: true iff the substring occurs at some position |
| Strings.Lower | FishCam/log_manager.py:184 | `lower()`: same length, each character mapped to lower case |
| Strings.Strip | FishCam/log_manager.py:249 | `strip()`: the result is the input minus leading and trailing whitespace, with no whitespace at either end |
| Strings.RStrip | FishCam/log_manager.py:85 | `rstrip()`: the result is a prefix of the input, only whitespace was removed, and it does not end in whitespace |
| Strings.ParseInt | FishCam/log_manager.py:307 | `int(s)` succeeds exactly on an optional sign followed by ASCII decimal digits, with single underscores allowed between digits as Python allows them |
| Strings.ParseIntOfString | FishCam/log_manager.py:307 | parsing the decimal text of any integer gives the integer back |
| Lexico.SortStrings | FishCam/log_manager.py:174 | `sorted()` returns an ordered permutation of its input |
| Lexico.SortStringsInOrder | FishCam/log_manager.py:174 | every element of the sorted list is at most every later one, not only its neighbour |
| Lexico.LexTransitive | FishCam/log_manager.py:174 | the string order `sorted()` uses is transitive |
| Lexico.LexTotal | FishCam/log_manager.py:174 | any two strings are ordered one way or the other |
| RelayInterface.Relay.Start | Aquaponics/main_app.py:151 | `start()` sets the relay running and counts one start; clients are untouched |
| RelayInterface.Relay.Stop | Aquaponics/main_app.py:475 | `stop()` clears running and counts one stop |
| RelayInterface.Relay.AddClient | Aquaponics/main_app.py:240 | `add_client()` returns a new queue handle and adds exactly it to the client set |
| RelayInterface.Relay.RemoveClient | Aquaponics/main_app.py:299 | `remove_client(q)` removes `q` from the client set and records the removal |
| RelayRegistry.StreamUrlParts | Aquaponics/main_app.py:236 | the upstream URL is "http://", the host, ":", the port's decimal text (it parses back to the port) and the path |
| RelayRegistry.KindFor | Aquaponics/main_app.py:131-149 | a URL gets the cached relay (15.0 s cache, 2.0 s delay) iff it contains the default camera host, else the plain relay |
| RelayRegistry.DefaultStreamIsCached | Aquaponics/main_app.py:84-93 | the default camera URL gets the cached relay |
| RelayRegistry.Registry.constructor | Aquaponics/main_app.py:110 | the registry starts empty |
| RelayRegistry.Registry.GetMediaRelay | Aquaponics/main_app.py:114-155 | a known URL returns the stored relay and changes nothing; an unknown URL stores one new relay of the right class that was started exactly once; every stored relay keeps its URL and was started |
| RelayRegistry.Registry.CleanupRelays | Aquaponics/main_app.py:466-477 | every registered relay is stopped once and the registry ends empty |
| RelayRegistry.Registry.Status | Aquaponics/main_app.py:361-379 | the report counts the relays and gives, per URL, the relay's running flag, client count, content type and whether it has a frame |
| StreamProxy.ServeYieldsQueuedChunks | Aquaponics/main_app.py:258-292 | the viewer is sent exactly the queued chunks before the stopping event, in order, and the end reason names that event: sentinel, error, stopped relay, too many timeouts, or a client that went away |
| StreamProxy.TooManyTimeoutsMeansTenInARow | Aquaponics/main_app.py:275-286 | the loop gives up on timeouts only after 10 consecutive empty waits with the relay running, counting those carried in |
| StreamProxy.FreshViewerWaitsTenTimes | Aquaponics/main_app.py:259-286 | from a fresh counter, giving up on timeouts means the last 10 queue outcomes were all timeouts |
| StreamProxy.TenTimeoutsGiveUp | Aquaponics/main_app.py:275-286 | conversely, with t empty waits carried in (t < 10), 10 - t further running-relay timeouts end the stream on the last of them, with nothing sent |
| StreamProxy.WarmUp | Aquaponics/main_app.py:251-256 | the warm-up polls at most 150 times, stops at the first poll that sees a frame, and reports no frame only after all 150 |
| StreamProxy.Generate | Aquaponics/main_app.py:242-300 | the generator sends what the queue specification prescribes and removes this viewer's queue exactly once, whatever ends the loop |
| StreamProxy.ServeViewer | Aquaponics/main_app.py:216-305 | the route builds the URL, gets or creates its relay, adds a client, serves it, and leaves the queue out of the relay's client set |
| StreamManagerModel.NextRetryDelay | Aquaponics/static/js/stream.js:216 | one backoff step gives the smaller of 1.5 times the delay and the 30000 ms cap, and never shrinks a delay already in [2000, 30000] |
| StreamManagerModel.BackoffDelayClosedForm | Aquaponics/static/js/stream.js:216 | starting from the 2000 ms of line 11, after n steps the delay is min(2000 * 1.5^n, 30000); it stays in [2000, 30000] and never decreases |
| StreamManagerModel.BackoffReachesCap | Aquaponics/static/js/stream.js:216 | from the seventh step on, the delay is the 30000 ms cap |
| StreamManagerModel.CacheBustUrlParts | Aquaponics/static/js/stream.js:178 | the cache-busting URL is the stream URL, then "&" if it has a "?" and "?" otherwise, then "t=" and the time |
| StreamManagerModel.StreamManager.constructor | Aquaponics/static/js/stream.js:3-22 | no retries yet, a 2000 ms delay, the page visible and focused, the stream inactive |
| StreamManagerModel.StreamManager.ShowLoading | Aquaponics/static/js/stream.js:233-237 | exactly the loading element is displayed |
| StreamManagerModel.StreamManager.ShowStream | Aquaponics/static/js/stream.js:239-243 | exactly the stream element is displayed |
| StreamManagerModel.StreamManager.ShowError | Aquaponics/static/js/stream.js:245-249 | exactly the error element is displayed |
| StreamManagerModel.StreamManager.StartStream | Aquaponics/static/js/stream.js:158-181 | an inactive page changes nothing; otherwise loading is shown, the retry count grows by one, the 20 s load timeout is armed and the image gets the cache-busting URL |
| StreamManagerModel.StreamManager.StopStream | Aquaponics/static/js/stream.js:183-190 | the load timeout is cleared, the image source emptied and the stream marked inactive; nothing else changes |
| StreamManagerModel.StreamManager.OnStreamLoad | Aquaponics/static/js/stream.js:192-202 | the retry count returns to 0 and the delay to 2000, the stream is active and shown, and the load timeout is cleared |
| StreamManagerModel.StreamManager.OnStreamError | Aquaponics/static/js/stream.js:204-224 | the stream becomes inactive; a retry is scheduled iff the page is active and fewer than 5 attempts were made; the error shows iff the page is active and the attempts are used up; otherwise neither |
| StreamManagerModel.StreamManager.LoadTimeoutFires | Aquaponics/static/js/stream.js:173-175 | a load that times out is handled exactly as a stream error: the same retry, error display and unchanged displays otherwise |
| StreamManagerModel.StreamManager.RetryTimerFires | Aquaponics/static/js/stream.js:215-218 | a due retry timer grows the delay by one backoff step and then starts the stream, leaving the stream-active flag as it was; while the page is inactive the stream, count, displays and load timeout stay as they were |
| StreamManagerModel.StreamManager.RetryConnection | Aquaponics/static/js/stream.js:226-231 | the count and delay are reset and the stream marked inactive before starting it again; while the page is inactive nothing is shown or armed |
| StreamManagerModel.StreamManager.HandleVisibilityChange | Aquaponics/static/js/stream.js:111-122 | the stream restarts from scratch iff the page is active and the stream was not active or not shown; otherwise nothing changes, so hiding or blurring the page leaves the stream running |
| StreamManagerModel.StreamManager.OnVisibilityChange | Aquaponics/static/js/stream.js:60-64 | the page's visibility becomes the negated hidden flag; the stream restarts iff the page is now active and the stream was not active or not shown, and is otherwise left as it was |
| StreamManagerModel.StreamManager.OnFocus | Aquaponics/static/js/stream.js:67-71 | focus is recorded; the stream restarts iff the page is visible and the stream was not active or not shown, and is otherwise left as it was |
| StreamManagerModel.StreamManager.OnBlur | Aquaponics/static/js/stream.js:73-77 | losing focus only clears the focus flag; the stream, its retry state and the displays are left as they are |
| StreamManagerModel.StreamManager.OnPageShow | Aquaponics/static/js/stream.js:86-91 | only a page restored from the back-forward cache reconnects: the retry state is reset, and the stream is started iff the page is active |
| StreamManagerModel.StreamManager.OnIntersection | Aquaponics/static/js/stream.js:94-108 | scrolling the stream into view reconnects iff the page is active and the stream is not: count 1, delay 2000, stream inactive, loading shown, load timeout armed, fresh src; pending timers and the visibility and focus flags are kept, and otherwise nothing changes |
| StreamManagerModel.FailingStreak | Aquaponics/static/js/stream.js:204-224 | a stream that never loads is tried 5 times, with waits of 2000, 3000, 4500 and 6750 ms between tries, and then the error is shown |
| LogManager.Lookup | FishCam/log_manager.py:70 | a file is found iff the listing has one of that name |
| LogManager.Classify | FishCam/log_manager.py:44-57 | the three current logs are recognised by exact name, the rotated ones by prefix plus ".log", and "Other" is exactly everything else |
| LogManager.RotatedNamesClassified | FishCam/log_manager.py:46-55 | a dated name of each log family is classified as that family's rotated log |
| LogManager.Tail | FishCam/log_manager.py:80-82 | a positive count gives the last min(count, length) lines in order; 0 and negative counts follow Python's `[-n:]` |
| LogManager.ShowLogTail | FishCam/log_manager.py:65-88 | a missing file and a read error are reported as such; otherwise the tail is shown, each line right-stripped |
| LogManager.Matching | FishCam/log_manager.py:161-167 | a glob returns exactly the listed names the pattern matches |
| LogManager.DatedPatternSelectsRotatedLogs | FishCam/log_manager.py:207-208 | the cleaning pattern matches every name.YYYY-MM-DD.log and none of the three current logs |
| LogManager.HitsSound | FishCam/log_manager.py:183-186 | every reported hit is a line that contains the term, ignoring case, with its 1-based number and its text stripped |
| LogManager.HitsInRange | FishCam/log_manager.py:183-186 | reported line numbers lie between 1 and the number of lines |
| LogManager.HitsOrdered | FishCam/log_manager.py:183-186 | hits are reported in increasing line order |
| LogManager.HitsComplete | FishCam/log_manager.py:183-186 | every line that contains the term, ignoring case, is reported |
| LogManager.SearchFile | FishCam/log_manager.py:179-186 | the loop over a file's lines reports exactly its hits and counts them |
| LogManager.SearchTargets | FishCam/log_manager.py:158-167 | a given filename overrides the log type; otherwise the log type's pattern selects the files |
| LogManager.FileCountsCorrect | FishCam/log_manager.py:188-194 | per-file summaries list exactly the readable files that have matches, in visiting order, with their counts |
| LogManager.SearchLogs | FishCam/log_manager.py:154-196 | files are visited in sorted order, missing files skipped, and the total is the sum of the per-file counts |
| LogManager.VisitFiles | FishCam/log_manager.py:174-196 | the visiting loop produces all hits, summaries, failures and the total prescribed by the specification |
| LogManager.RemovedExactly | FishCam/log_manager.py:212-223 | exactly the dated files older than the cutoff whose removal succeeds are deleted; all others are kept |
| LogManager.CurrentLogsKept | FishCam/log_manager.py:385 | cleaning never deletes a current log |
| LogManager.CleanOldLogs | FishCam/log_manager.py:199-228 | the cleaning ends with an OverflowError, touching nothing, exactly when the day count exceeds `timedelta`'s range or now minus the days falls outside `datetime`'s; otherwise the cutoff is now minus the days, and the deleted count and freed space count only successful deletions |
| LogManager.PositiveDaysOverflow | FishCam/log_manager.py:202 | for a positive count from 1970 on, the overflow happens exactly when the cutoff falls before year 1: never up to 719162 days, always from 3652059, and before 2100 from 766644 on |
| LogMenus.MainChoice | FishCam/log_manager.py:250-251 | exactly "1" to "6" are accepted, as their number |
| LogMenus.TailFileChoice | FishCam/log_manager.py:278-294 | an accepted tail choice names a file |
| LogMenus.TailFileChoices | FishCam/log_manager.py:282-294 | empty input or n+1 selects `sensors_ts.log`, 1..n select the listed file, and other numbers re-prompt |
| LogMenus.PositiveCount | FishCam/log_manager.py:299-313 | an accepted line count is positive |
| LogMenus.CountChoices | FishCam/log_manager.py:304-311 | a number is accepted as a line count iff it is positive; the number of days (lines 396-404) uses the same test |
| LogMenus.DaysChoice | FishCam/log_manager.py:387-406 | "cancel" aborts; any other accepted answer is a positive number of days |
| LogMenus.ScopeOf | FishCam/log_manager.py:343-345 | exactly "1" to "5" are accepted as a search scope |
| LogMenus.SearchFileChoice | FishCam/log_manager.py:365-375 | an accepted file number selects a listed file |
| LogMenus.Accept | FishCam/log_manager.py:245-413 | each prompt accepts only answers of its own kind |
| LogMenus.FirstAccepted | FishCam/log_manager.py:247-253 | a prompt loop stops at the first acceptable input, and every earlier input was rejected |
| LogMenus.Ask | FishCam/log_manager.py:276-296 | the prompt loop consumes inputs up to and including the first acceptable one, and returns its answer |
| LogMenus.GetUserChoice | FishCam/log_manager.py:245-256 | the menu choice is the first input in "1" to "6", so it lies between 1 and 6 |
| LogMenus.HandleTailMenu | FishCam/log_manager.py:259-315 | the tail request names the chosen file and a positive line count, 20 by default |
| LogMenus.HandleCleanMenu | FishCam/log_manager.py:380-413 | cleaning is requested only with a positive day count (7 by default) and a "y" or "yes" confirmation; "cancel" aborts |
| LogMenus.HandleSearchMenu | FishCam/log_manager.py:318-377 | the search runs with the chosen scope's log type, or on a listed file the user picked |
| SpeedtestLogger.ToMbps | FishCam/speedtest_logger/speedtest_logger.py:92-97 | bits per second divided by 10^6 |
| SpeedtestLogger.SingleTest | FishCam/speedtest_logger/speedtest_logger.py:88-110 | a run succeeds iff the library returns results, which are converted to Mbps |
| SpeedtestLogger.Successes | FishCam/speedtest_logger/speedtest_logger.py:128-135 | there are no more successes than runs |
| SpeedtestLogger.SuccessesCount | FishCam/speedtest_logger/speedtest_logger.py:128-143 | the successes are as many as the runs that did not fail, and none are left iff every run failed |
| SpeedtestLogger.RunAveragedTest | FishCam/speedtest_logger/speedtest_logger.py:112-159 | no server means no test and no result; otherwise the call aborts with an exception iff building some run's Speedtest client fails, after the runs before it and their pauses; without that, 3 tests with 2 pauses run, and the result exists iff a test succeeded, averaging the successes and counting them |
| SpeedtestLogger.RunAveragedTestGuarded | FishCam/speedtest_logger/speedtest_logger.py:123-135 | with the client built inside the per-run guard, all 3 runs are made and a result exists iff some run had its client built and succeeded |
| SpeedtestLogger.OutageAtFirstClient | FishCam/speedtest_logger/speedtest_logger.py:126 | a failure to build the first client aborts before any test, though the guarded version still averages a later successful run |
| SpeedtestLogger.AveragesWithinRuns | FishCam/speedtest_logger/speedtest_logger.py:146-148 | each averaged metric lies between the slowest and fastest successful run |
| SpeedtestLogger.NextRunAsWritten | FishCam/speedtest_logger/speedtest_logger.py:193-196 | the schedule as written: minute 0 of the next hour, failing at hour 23 |
| SpeedtestLogger.NextRun | FishCam/speedtest_logger/speedtest_logger.py:193-196 | the next run is at minute 0 of the following hour, carried into the next day after 23:00, and agrees with the code before 23:00 |
| JoystickScaling.DownSpeed | Tyr/GamePad_Control/commented_tyr_controller_code.py:99-107 | the push-down speed is 0 or at least 50, and is non-zero exactly from reading 1152 up |
| JoystickScaling.UpSpeed | Tyr/GamePad_Control/commented_tyr_controller_code.py:113-122 | the push-up speed is 0 or at most -50 |
| JoystickScaling.UpSpeedIsNegatedDownSpeed | Tyr/GamePad_Control/try_pyps4.py:37-45 | scaling with -51 equals negating the +51 scaling of the negated reading; it is non-zero exactly from -1152 down |
| JoystickScaling.DownSpeedFitsByte | Tyr/GamePad_Control/try_pyps4.py:20-27 | within the stick's range the speed fits in a byte |
| JoystickScaling.DownSpeedMonotone | Tyr/GamePad_Control/try_pyps4.py:21-28 | a harder push never gives a lower speed |
| TryPyps4.Handle | Tyr/GamePad_Control/try_pyps4.py:13-75 | only R3 down, up and at rest write to the bus: one byte to 0x40, register 0x01 for down and 0x00 otherwise, non-zero exactly outside the dead zone; L3 and R3 left/right write nothing |
| TryPyps4.SentByteInRange | Tyr/GamePad_Control/try_pyps4.py:19-55 | for readings in the stick's range the byte sent is 0 or in 50..255 |
| TyrController.DirectionBit | Tyr/GamePad_Control/commented_tyr_controller_code.py:83-86 | the direction bit is 0 exactly for a negative speed, else 1 |
| TyrController.MoveWrites | Tyr/GamePad_Control/commented_tyr_controller_code.py:82-92 | `move` writes one byte to 0x44 at each of registers 0x00+i, 0x02+i and 0x04+i, carrying the main speed's magnitude, the first secondary speed and the magnitude again |
| TyrController.SteeringAngleRange | Tyr/GamePad_Control/commented_tyr_controller_code.py:134-161 | with the constants of lines 19-21, left and right pushes steer by at most 90 degrees, so the main-wheel servo angle 90 + alpha stays within 0..180 |
| TyrController.PushSendsByte | Tyr/GamePad_Control/commented_tyr_controller_code.py:99-125 | after a stick push, the speed byte sent is 0 or in 50..255 |
| TyrController.MyController.constructor | Tyr/GamePad_Control/commented_tyr_controller_code.py:26-56 | car mode, all speeds and angles 0, both servos at 90 |
| TyrController.MyController.CarModeWheels | Tyr/GamePad_Control/commented_tyr_controller_code.py:58-78 | below 3 degrees every wheel takes the main wheel's angle and speed magnitude; otherwise the turning-circle geometry decides |
| TyrController.MyController.ForCarMode | Tyr/GamePad_Control/commented_tyr_controller_code.py:58-78 | the secondary wheels get the car-mode values, and the small-angle branch is reported |
| TyrController.MyController.Move | Tyr/GamePad_Control/commented_tyr_controller_code.py:80-95 | the three register writes are made when the motor controller is attached, and none otherwise |
| TyrController.MyController.OnR3Down | Tyr/GamePad_Control/commented_tyr_controller_code.py:97-110 | the main speed becomes the push-down speed, the wheels follow and the speeds are sent |
| TyrController.MyController.OnR3Up | Tyr/GamePad_Control/commented_tyr_controller_code.py:112-125 | the main speed becomes the push-up speed, the wheels follow and the speeds are sent |
| TyrController.MyController.OnR3YAtRest | Tyr/GamePad_Control/commented_tyr_controller_code.py:127-132 | the main speed is 0 before the speeds are sent |
| TyrController.MyController.OnR3Left | Tyr/GamePad_Control/commented_tyr_controller_code.py:134-147 | the angle becomes value // 364 + 1; servo 0 goes to 90 - beta and servo 1 to 90 + alpha; for a left push in the stick's range, with the geometry's beta within 0..90, both servo angles lie in 0..180 |
| TyrController.MyController.OnR3Right | Tyr/GamePad_Control/commented_tyr_controller_code.py:149-161 | the angle becomes value // 364; servo 0 goes to 90 + alpha and servo 1 to 90 + beta; for a right push in the stick's range, with the geometry's beta within 0..90, both servo angles lie in 0..180 |
| CameraTest.FindWorkingCamera | FishCam/camera_test.py:18-36 | indices are probed from 0 upward; the first that opens and yields a frame is returned, None iff none up to the limit does, and every probed capture is released |
| CameraTest.FindDefaultCamera | FishCam/camera_test.py:111 | the utility's call with the default limit of line 18 probes indices 0, 1, ... in order up to 3 at most, stopping at the first working one, which it returns; None iff none of the four works; every probed capture is released once |
| CameraTest.CameraInfo | FishCam/camera_test.py:39-56 | nothing is reported for a camera that does not open; otherwise the reported resolution and rate after requesting 800x600 at 20 fps |
| CameraTest.RequestAt | FishCam/camera_test.py:63-79 | the requests run resolution-major: position 8i+j asks for resolution i at rate j |
| CameraTest.CollectUnique | FishCam/camera_test.py:88-92 | no "WxH" is recorded twice |
| CameraTest.CollectLabels | FishCam/camera_test.py:88-92 | a "WxH" is recorded iff some request for it was met exactly |
| CameraTest.CollectSound | FishCam/camera_test.py:88-92 | each recorded configuration comes from the first exactly-met request for its resolution |
| CameraTest.FirstIffNew | FishCam/camera_test.py:88-92 | a request is the first exactly-met one for its resolution iff it is met exactly and its "WxH" is not yet recorded |
| CameraTest.CollectComplete | FishCam/camera_test.py:88-92 | the first exactly-met request for each resolution is recorded |
| CameraTest.TryRate | FishCam/camera_test.py:80-92 | one request: its configuration is recorded exactly when the camera reports the requested width and height and no configuration with that "WxH" is recorded yet |
| CameraTest.ScanResolution | FishCam/camera_test.py:79-92 | after the inner loop over the 8 frame rates of resolution i, the record is what the requests of the first i+1 resolutions yield |
| CameraTest.FallbackTable | FishCam/camera_test.py:100-105 | the fallback table has one row per each of the first 4 resolutions, as the camera reports them |
| CameraTest.ScanSupportedResolutions | FishCam/camera_test.py:59-107 | a camera that does not open yields nothing; otherwise the camera is released, the record is the de-duplicated list, and the fallback table appears only when nothing matched |
| MotorEncoder.ToDegrees | Tyr/Code/CircuitPython/test_motor_and_encoder.py:55-65 | degrees times counts per turn is counts times 360; 0 counts is exactly 0 degrees, one turn is 360, and the sign follows the counts |
| MotorEncoder.ToDegreesLinear | Tyr/Code/CircuitPython/test_motor_and_encoder.py:65 | the conversion is additive in the position |
| MotorEncoder.ToDegreesOdd | Tyr/Code/CircuitPython/test_motor_and_encoder.py:65 | negating the position negates the angle |
| MotorEncoder.ToDegreesTurn | Tyr/Code/CircuitPython/test_motor_and_encoder.py:55-65 | one more turn of counts adds exactly 360 degrees |
| MotorEncoder.MotorWithEncoder.constructor | Tyr/Code/CircuitPython/test_motor_and_encoder.py:50-52 | counts per turn are 12 times the gear ratio |
| MotorEncoder.MotorWithEncoder.PerformMovement | Tyr/Code/CircuitPython/test_motor_and_encoder.py:68-93 | the throttle log gains the requested throttle and then 0; the encoder is polled exactly while the elapsed time is short of the duration, every poll is taken with the requested throttle in effect and converted to degrees, and the throttle is 0 at the end |
| MotorEncoder.Demo | Tyr/Code/CircuitPython/test_motor_and_encoder.py:102-126 | with gear ratio 50 (600 counts per turn), the eight movements set 0.5, 0, 1.0, free spin, -0.5, 0, -1.0 and free spin, each followed by a stop, and each movement polls exactly while less than 1 s has elapsed |
| ReadSingleEncoder.ToDegrees | Tyr/Code/read_single_encoder.py:17-28 | with 600 counts per turn, 0 counts is 0 degrees, 600 is 360, and the angle is positive iff the count is |
| ReadSingleEncoder.WholeTurns | Tyr/Code/read_single_encoder.py:28 | the conversion is odd, and k further turns add exactly 360k degrees |

## Left out

- The relay classes `CachedMediaRelay` and `MediaRelay` (imported at Aquaponics/main_app.py:29-30) are not part of this model. `RelayInterface.Relay` models only the calls the server makes on them: `start`, `stop`, `add_client` and `remove_client`, plus the `running`, `last_frame` and client-set state. The frame cache, fan-out and upstream reconnection are outside it.
- Flask routes, templates, response headers, the debug endpoints and the logging setup are framework and I/O glue.
- `_relay_lock`: each locked section is one atomic method, and other threads are not modelled.
- Browser APIs (DOM elements, `setTimeout`, `fetch`, `IntersectionObserver`, the periodic health check and visibility monitor, the relay warm-up request) are events: the environment calls the methods that timers and listeners would call.
- Floating-point rounding: float arithmetic is exact real arithmetic. One effect: the warm-up wait adds 0.1 to a float 150 times, and the float sum falls short of 15. The program can therefore sleep 151 times, while `StreamProxy.WarmUp` counts 150.
- Strings.Lower, Strings.Strip, Strings.RStrip: only ASCII letters and ASCII whitespace are handled, not Unicode case mapping and whitespace.
- Strings.ParseInt: Python's `int()` also accepts surrounding whitespace and non-ASCII digits. The model accepts only an optional sign and ASCII digits, with single underscores between digits; every input the menus pass has already been stripped. Python 3.11 and later also refuse text of more than 4300 digits with ValueError; the model has no such limit, so `LogMenus.CountChoices` accepts counts that long which the menus would reject and re-prompt for.
- Globbing is reduced to the patterns the log manager uses, on a flat listing of names.
- Time zones and daylight saving time are left out; times are seconds, or day/hour/minute stamps.
- The log manager's `main()` dispatch loop, `list_log_files`' table printing and `show_log_stats` are console output around the modelled operations.
- `CameraTest.CameraInfo`: the camera is an oracle from requested to reported settings, so it cannot depend on earlier requests.
- The speed-test library, the rich console output, server selection and the `schedule` loop are foreign calls. The server lookup and each run's outcome are inputs.
- `TyrController.MyController.CarModeWheels`: the trigonometric branch of `for_car_mode` (3 degrees and more) is floating-point geometry. It is the `geometry` oracle, and only the small-angle branch is stated exactly. That its angle lies within 0..90 for steering angles of 3 to 91 degrees (`TyrController.BetaBounded`; the arctangent gives 0 to 46 with both wheel distances 100) is assumed of the oracle where the servo ranges are stated, not derived from the trigonometry.
- `TyrController.MyController.Move`: a failing I2C write can fail midway through the three writes. The model treats the bus as attached or not, so the writes happen all or none.
- ServoKit rejects angles outside 0..180 with an error. The model records the angles. `OnR3Left` and `OnR3Right` show that both angles stay within 0..180 for in-range stick readings pushed in their own direction, given the geometry bound above.
- The GUI and threading demonstration scripts and the configuration module are not part of this model.
- `Tyr/Code/CircuitPython/multiple_motors_encoders.py` is not modelled. It does not parse: the `while True:` at line 135 sits at the indentation of the `try:` at line 109, so that `try` has no `except` or `finally` before it and the file is a syntax error that never runs. Its `except KeyboardInterrupt` handler (line 184) also names `motor_with_encoder`, which is never defined. Its `MotorWithEncoder` class differs from the one in `test_motor_and_encoder.py`: `perform_movement` takes an extra `motor_name` argument and prints it (lines 75 and 85), and it prints the object itself rather than a fixed label (line 100). `MotorEncoder` models only `test_motor_and_encoder.py`'s class.
- MotorEncoder.ToDegrees: a gear ratio of 0 makes `to_degrees` divide by zero. The model requires a non-zero count per turn instead of modelling the exception.
- The endless read-and-print loop of `read_single_encoder.py` is I/O around `ReadSingleEncoder.ToDegrees`.
- StreamProxy.ServeViewer: the model assumes the response is iterated from the start. In the source the queue is added in the route (main_app.py:240), but only the generator's `try`/`finally` (lines 258-299) removes it. A response that is never iterated, or an exception in the warm-up loop before the `try`, leaves the queue registered, so its removal is not guaranteed.
- `StreamManagerModel.StreamManager.RetryConnection`: retry timers already scheduled are not cancelled by `retryConnection`. The model keeps them in `pendingRetries`, where they can still fire.

## Findings

| source | as written | input that shows it | evidently intended | confidence | as-written member | corrected member |
|---|---|---|---|---|---|---|
| FishCam/speedtest_logger/speedtest_logger.py:193-196 | with a 60-minute interval the minute always becomes 0 and the hour is set to `hour + 1`; at hour 23 that is `replace(hour=24)`, which raises `ValueError` | any time between 23:00 and 23:59 | the next run at 00:00 of the following day | not executed | SpeedtestLogger.NextRunAsWritten | SpeedtestLogger.NextRun |
| FishCam/speedtest_logger/speedtest_logger.py:123-135 | each run builds a fresh `Speedtest(secure=True)` at line 126, outside `run_single_test`'s try; the library fetches its configuration while being built, so a network failure there raises out of `run_averaged_test`, and neither `scheduled_test` (line 209) nor the KeyboardInterrupt-only guard (lines 211-217) catches it, so the logger stops | the network is down while the first run's client is built, and the later runs would succeed | the failure counts as one failed run, as a failure inside `run_single_test` does, and the other runs are averaged | medium, not executed | SpeedtestLogger.OutageAtFirstClient | SpeedtestLogger.RunAveragedTestGuarded |
