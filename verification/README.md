# E-waste sorting demo: a Dafny model

The repository is a small e-waste sorting rig. A camera watches a tray and
waits until an object has come to rest. It then photographs the object and
asks a cloud vision model whether the item is "Safe to Shred". An Arduino
servo pushes the item into the left (safe) or the right (unsafe) bin. The
repository also holds:

- two batch analysers for a folder of images;
- a Raspberry Pi receiver that turns serial "LEFT"/"RIGHT" lines into servo swings;
- the serial-port search for the Arduino;
- a script that generates a demo image dataset.

This project models that core in Dafny and proves properties of the model.

- `Stabilization` holds the per-frame state machine shared by both camera
  loops. The state is two counters and the "object handled" flag; each frame is
  reduced to its changed area. The proofs cover the single-shot guarantee:
  - two captures are at least 31 frames apart;
  - the 30 frames after a capture show the countdown;
  - a quiet frame separates two captures.
  They also prove that a quiet scene never fires and that an object left in
  place after the flag clears is captured again.
- `AutoDetect` and `AutoDetectSort` are the two camera loops as classes whose
  methods update the same fields as the scripts. `Watch`/`Run` are proved
  against `Stabilization.Trace`. With a working serial link, the sorter
  receives exactly one bin line per analysed item, in order, then the
  centring line.
- `Sorter` is the Arduino controller (`utils/sorter.py`) as a class with its
  connection flag and the log of written lines. Every command it sends decodes
  back to its letter and the clamped angle. The home command sent during
  `connect` is refused, because the connected flag is set only after it; the
  model keeps that behaviour.
- `ArduinoUtils` and `FindArduino` hold the two port searches. Both loops are
  proved to return the first port, in list order, that is accepted. Every port
  the diagnostic script accepts is a candidate of the library search.
- `FinalAnalyze` covers `final_analyze.py`, whose copy `simple_analyzer.py` is
  byte-identical. It models:
  - the result record and its defaults;
  - `result.update` for the model's answer;
  - the image scan by suffix;
  - the per-folder loop;
  - the summary counts and the printed lines.
  The cloud call is an oracle parameter (`ModelOutcome`).
- `WilliamAnalyze` covers `william_analyze.py`:
  - the 37-value category enumeration and the 4-value shred-safety one, each
    with a value round trip;
  - the JSON schema, proved to accept exactly the answers that validate into
    the record;
  - the processing report;
  - the folder loop, whose item numbers advance for failed images too.
- `SetupDemo` covers `setup_demo.py`: colour jitter with clamping, the
  contrasting text colour, centring, file names, and the two loops that make
  twenty images for each of three classes. Every path is distinct.
- `RaspberryPi` covers `raspberrpypi.py`. The line classification checks "left"
  first, ignores case and ignores surrounding whitespace. The servo rig is a
  class whose position log ends in the middle after any input.
- `Text` holds the Python string operations the scripts rely on (`lower`,
  `strip`, `in`, `startswith`, `str(n)`, `f"{n:02d}"` and `join`), with the
  lemmas connecting them.

The camera, the clock, the cloud model, the serial library and the random
generator are parameters:

- a run of `Frame`s, each giving the changed area and what a capture would see;
- a `ModelOutcome` or `Attempt` for the model's answer;
- a `SerialWorld` of listed, openable and faulty ports;
- `Draw`s for the random choices.

## Model

| member | source | states |
|---|---|---|
| Stabilization.Step | auto_detect.py:77-135 | One frame: cooldown first (count down, show the remaining count, keep the stable count), then motion (reset the stable count), then quiet or steady (increment it). A capture fires iff it is outside cooldown, the area is steady, the count passes 10 and the flag is clear; it sets the flag and a 30-frame cooldown. The flag is cleared by a quiet frame once the cooldown is over. Validity (cooldown ≤ 30) is preserved. |
| Stabilization.StatusOutsideCooldown | auto_detect.py:86-131 | Outside cooldown, the status is "STABLE - NO OBJECT" or "WAITING" on a quiet frame, "OBJECT PRESENT" once the flag is set, and "STABILIZING... n" below the threshold. |
| Stabilization.Trace | auto_detect.py:38-151 | Every processed frame gets exactly one status. |
| Stabilization.RunAppend | auto_detect.py:38-151 | Feeding two runs of frames one after the other equals feeding their concatenation, for both the state and the status list. |
| Stabilization.RunValid | auto_detect.py:121-125 | Every state reached from a valid one has a cooldown of at most 30 frames. |
| Stabilization.CooldownCountsDown | auto_detect.py:81-84 | During a cooldown every frame shows the count going down by one, the stable count is frozen and nothing fires. |
| Stabilization.FlagHeldUntilQuiet | auto_detect.py:133-135 | Once set, the flag stays set and nothing fires until a quiet frame arrives after the cooldown has run out. |
| Stabilization.SingleShotAfterCapture | auto_detect.py:100-135 | Another capture after one needs at least 30 frames and a quiet frame among them after the cooldown. |
| Stabilization.TraceSuffix | auto_detect.py:38-151 | Statuses from frame n on are those of the state reached after n frames. |
| Stabilization.TracePrefix | auto_detect.py:38-151 | A frame's status does not depend on later frames. |
| Stabilization.AfterCapture | auto_detect.py:124-125 | Right after a capture the flag is set and the cooldown is 30. |
| Stabilization.SingleShot | auto_detect.py:100-135 | Two captures at frames i < j are more than 30 frames apart. The 30 frames after i show the countdown 29 … 0, and a quiet frame lies between i + 30 and j. |
| Stabilization.SingleShotQuiet | auto_detect.py:133-135 | Between two captures there is a quiet frame at or after the end of the cooldown. |
| Stabilization.SingleShotCooldown | auto_detect.py:81-84 | The frames after a capture show "COOLDOWN: 29" down to "COOLDOWN: 0". |
| Stabilization.CooldownFrameAfterCapture | auto_detect.py:81-84 | Frame i + m after a capture at i (m ≤ 30) shows a cooldown of 30 − m. |
| Stabilization.QuietNeverFires | auto_detect.py:92-96 | A run of quiet frames only ever shows waiting, stable-no-object or cooldown. |
| Stabilization.StableCountKeptWithoutMotion | auto_detect.py:86-99 | Without a motion frame the stable count never drops. |
| Stabilization.RecaptureWithoutMotion | auto_detect.py:97-125 | When the flag is clear and no motion has reset the stable count, the next steady frame captures again, even if it shows the same object. |
| AutoDetect.CooldownTextShowsCount | auto_detect.py:83 | The cooldown overlay is "COOLDOWN: " followed by the decimal digits of the remaining count. |
| AutoDetect.StabilizingTextShowsTarget | auto_detect.py:130 | The stabilising overlay starts with "STABILIZING... " and ends with "/10". |
| AutoDetect.ResultLines | auto_detect.py:117-121 | The result block is "RESULT:", the item line and the safety line, plus the joined hazards line exactly when there are hazards. |
| AutoDetect.Areas | auto_detect.py:61 | One changed area per frame: entry k is the area of frame k. |
| AutoDetect.FeedOne | auto_detect.py:38-151 | One more frame adds one step, one status, and its capture record exactly when it fires. |
| AutoDetect.FedStep | auto_detect.py:38-151 | Observing one frame keeps the loop's relation between the fields and the frames seen. |
| AutoDetect.CapturesOnlyOnTrigger | auto_detect.py:100-125 | Nothing is analysed iff no frame's status is the capture trigger. |
| AutoDetect.CapturesBounded | auto_detect.py:100-125 | There are never more analyses than frames. |
| AutoDetect.QuietSceneCapturesNothing | auto_detect.py:92-96 | An all-quiet scene analyses nothing. |
| AutoDetect.AutoDetector.constructor | auto_detect.py:12-27 | Starts with no previous frame, zero counters and a clear flag. |
| AutoDetect.AutoDetector.ProcessFrame | auto_detect.py:38-151 | The first frame only becomes the previous frame. Every later frame takes one `Step`, records its status, and records the analysis of `auto_<timestamp>.jpg` exactly on the trigger frame. |
| AutoDetect.AutoDetector.Observe | auto_detect.py:77-135 | The fields become `Step`'s next state; the status and, on the trigger, the analysis record are appended. |
| AutoDetect.AutoDetector.Watch | auto_detect.py:38-155 | After a run of frames the counters are `Run`, the statuses are `Trace` and the results are the captures of the trigger frames, in order. |
| AutoDetect.AutoDetector.Run | auto_detect.py:29-158 | The whole loop: the first frame primes, the rest are observed as in `Watch`. |
| AutoDetectSort.SortLine | auto_detect_sort.py:58-63 | Only the exact label "Safe to Shred" sends "L180"; every other label sends "R180". |
| AutoDetectSort.SortLines | auto_detect_sort.py:164 | One bin line per analysis result: line k is the bin line of result k's safety level. |
| AutoDetectSort.FailedAnalysisSortsUnsafe | final_analyze.py:117-148 | An analysis whose upload, model call or parse fails keeps "Do Not Shred", so the item goes to the right bin. |
| AutoDetectSort.MissingLabelSortsUnsafe | final_analyze.py:117-143 | An answer without a safety label keeps the default and also goes right. |
| AutoDetectSort.SorterFedStep | auto_detect_sort.py:154-164 | Routing at most one more result with a working link appends its bin line. A failing link appends nothing and drops the connected flag. |
| AutoDetectSort.RoutedStep | auto_detect_sort.py:145-163 | Observing one more frame routes its capture, if it fired, after the captures of the earlier frames. |
| AutoDetectSort.SessionLog | auto_detect_sort.py:220-225 | Bin lines for the routed results followed by the centring line "L90" are what the sorter receives over a session. |
| AutoDetectSort.AutoDetectorWithSorting.constructor | auto_detect_sort.py:18-47 | Keeps the sorter iff auto-detection found a port that opens. It is then connected on that port and has written nothing, since the home command is refused. |
| AutoDetectSort.AutoDetectorWithSorting.PerformSorting | auto_detect_sort.py:49-64 | Without a connected sorter nothing happens. Otherwise "L180" goes out for "Safe to Shred" and "R180" for anything else, and a write failure drops the flag. |
| AutoDetectSort.AutoDetectorWithSorting.CaptureAndSort | auto_detect_sort.py:146-164 | The trigger frame's photo is analysed, the record appended and the item routed by its safety level. |
| AutoDetectSort.AutoDetectorWithSorting.Observe | auto_detect_sort.py:116-179 | Same state change as the plain detector. On the trigger frame the sorter also receives the bin line of the new record. |
| AutoDetectSort.AutoDetectorWithSorting.Feed | auto_detect_sort.py:78-201 | One loop pass keeps both loop relations: detector state versus frames, and sorter log versus captures. |
| AutoDetectSort.AutoDetectorWithSorting.Watch | auto_detect_sort.py:78-201 | After a run of frames the detector fields are `Run`/`Trace`/captures. The sorter log has one bin line per captured item, in order, when the link works. |
| AutoDetectSort.AutoDetectorWithSorting.Shutdown | auto_detect_sort.py:220-225 | With a sorter: centre it ("L90" when the link works), close it and clear its flag. |
| AutoDetectSort.AutoDetectorWithSorting.Run | auto_detect_sort.py:66-225 | The whole session. With a working link the sorter's log gains exactly the bin lines of the analysed items followed by "L90", and it ends disconnected. |
| Sorter.Clamp | utils/sorter.py:124 | The angle is clamped into 0..180 and unchanged inside it. |
| Sorter.ServoCommand | utils/sorter.py:109-135 | A command exists iff the lower-cased direction is left, right or center. Left/right give "L"/"R" and the clamped angle (default 180); center always gives "L90". |
| Sorter.DecodeLetterAndNumber | utils/sorter.py:127-130 | A letter followed by the decimal rendering of n reads back as that letter and n. |
| Sorter.ServoCommandDecodes | utils/sorter.py:109-135 | Round trip: every command `move_servo` sends decodes to its letter and the clamped angle, with 90 for center. |
| Sorter.Literals | utils/sorter.py:113-132 | The literal directions are already lower case and the angles render as "180" and "90". |
| Sorter.FixedCommands | utils/sorter.py:142-156 | The sort moves send "L180" and "R180" and the centre move sends "L90", each as one line. |
| Sorter.TestMove | utils/sorter.py:167-176 | Each of the five test moves is accepted and written as the corresponding line of the test sequence. |
| Sorter.ArduinoController.constructor | utils/sorter.py:24-41 | Keeps a given port or takes the first auto-detected one, and starts without a connection. |
| Sorter.ArduinoController.SendCommand | utils/sorter.py:72-96 | Refused unless connected. A write failure drops the flag. Otherwise exactly the command plus a newline is appended to the log. |
| Sorter.ArduinoController.MoveServo | utils/sorter.py:98-140 | An invalid direction sends nothing. Otherwise it sends `ServoCommand`, with `SendCommand`'s outcome. |
| Sorter.ArduinoController.SortSafe | utils/sorter.py:142-148 | Writes "L180" iff connected on a working link. |
| Sorter.ArduinoController.SortUnsafe | utils/sorter.py:150-156 | Writes "R180" iff connected on a working link. |
| Sorter.ArduinoController.Connect | utils/sorter.py:43-70 | Re-detects a missing port. Succeeds iff the port opens, and then is connected with an open link. The home command is written only if the controller was already connected. On failure nothing changes. |
| Sorter.ArduinoController.TestServo | utils/sorter.py:158-181 | Succeeds iff connected on a working link, then having written the five test lines in order. On failure nothing was written. |
| Sorter.ArduinoController.Disconnect | utils/sorter.py:183-192 | Only with a connection object: centre (written iff the link works), close and clear the flag. |
| ArduinoUtils.FirstArduino | utils/arduino_utils.py:13-40 | None iff no port is both a keyword candidate and openable. Otherwise it is the device of the first such port in list order. |
| ArduinoUtils.UsbPortIsCandidate | utils/arduino_utils.py:23-29 | Any port whose lower-cased text mentions "usb" is a candidate, since "USB" is a keyword. |
| ArduinoUtils.ProbePort | utils/arduino_utils.py:26-37 | The keyword loop for one port finds it iff it is a candidate that opens. |
| ArduinoUtils.FirstArduinoFrom | utils/arduino_utils.py:25-37 | The first accepted port of a suffix is decided by its head or left to the rest. |
| ArduinoUtils.FindArduinoPort | utils/arduino_utils.py:13-40 | The nested scan returns exactly `FirstArduino`. |
| ArduinoUtils.GetArduinoConnection | utils/arduino_utils.py:42-67 | No port (or an empty name) gives None. Otherwise it gives the port iff it opens. |
| FindArduino.Find | tests/find_arduino.py:9-44 | An empty port list gives None. Otherwise it gives the first port whose device or description contains an id, ignoring case, and None iff there is none. |
| FindArduino.MatchIsCandidate | tests/find_arduino.py:27-36 | Every port the diagnostic accepts is a candidate of the library search. |
| FinalAnalyze.DefaultRecord | final_analyze.py:117-125 | The record starts as "Unknown", "Do Not Shred", no hazards, no notes, no error. |
| FinalAnalyze.Overlay | final_analyze.py:142-143 | Keys present in the answer overwrite; absent keys keep their value; file name, number and error are untouched. |
| FinalAnalyze.Analyzed | final_analyze.py:117-150 | A failed call gives the default record with the error message ("Do Not Shred"). An answer gives the default record overlaid with it and no error. |
| FinalAnalyze.AnalyzeOneImage | simple_analyzer.py:104-150 | Builds exactly `Analyzed` for the outcome. |
| FinalAnalyze.RFind | final_analyze.py:244 | The last index holding the character, or -1. |
| FinalAnalyze.Suffix | final_analyze.py:244 | A non-empty suffix is a proper tail of the name that starts with its only dot. |
| FinalAnalyze.DotFileHasNoSuffix | final_analyze.py:244 | A name like ".png" has no suffix. |
| FinalAnalyze.SuffixOfExtension | final_analyze.py:244 | A non-empty stem, a dot and a non-empty dot-free extension give that dot and extension as the suffix. |
| FinalAnalyze.UpperCaseSuffixIsImage | final_analyze.py:244 | A regular file "photo.JPG" is taken as an image: the suffix test ignores case. |
| FinalAnalyze.ImageFiles | final_analyze.py:242-245 | The image list holds exactly the names of regular files with an allowed suffix, ignoring case. |
| FinalAnalyze.ImageFilesAppend | final_analyze.py:242-245 | Scanning two runs of entries gives the two image lists in that order, so scan order is kept and nothing is repeated. |
| FinalAnalyze.ImageFilesSingleton | final_analyze.py:242-245 | One entry contributes its name exactly when it is an image file. |
| FinalAnalyze.FindImageFiles | final_analyze.py:242-245 | The scan loop builds `ImageFiles` in directory order. |
| FinalAnalyze.AnalyzeFolder | final_analyze.py:227-279 | A missing folder and a folder without images stop early. Otherwise there is one record per image, numbered from 1, in scan order. |
| FinalAnalyze.CountLevel | final_analyze.py:196-199 | A label's count never exceeds the number of results. |
| FinalAnalyze.CountLevelAppend | final_analyze.py:196-199 | Counting a label over two runs of results adds the two counts. |
| FinalAnalyze.CountLevelSingleton | final_analyze.py:196-199 | One result counts 1 for its own exact label and 0 for any other. |
| FinalAnalyze.FailedResults | final_analyze.py:215 | Exactly the results with a truthy error, drawn from the results. |
| FinalAnalyze.FailedResultsAppend | final_analyze.py:215 | Filtering two runs one after the other gives the two filtered runs in that order, so the original order is kept. |
| FinalAnalyze.FailedResultsSingleton | final_analyze.py:215 | A single result is kept exactly when its error is truthy. |
| FinalAnalyze.Names | final_analyze.py:218-219 | The file names of the listed results, in order. |
| FinalAnalyze.LevelCountsBounded | final_analyze.py:195-199 | The four label counts add up to at most the total. |
| FinalAnalyze.Summarize | simple_analyzer.py:182-221 | Total, successful = total − failed, each of the four counts equal to the number of results with that exact label (together at most the total), and the failed file names. |
| FinalAnalyze.FailedCallIsListed | final_analyze.py:145-219 | A failed model call with a non-empty message appears among the failed files of the summary. |
| FinalAnalyze.NewlineLineIsPlain | final_analyze.py:164-180 | A printed block opened by a newline is neither a hazards nor a notes line. |
| FinalAnalyze.NotesLineIsNotHazards | final_analyze.py:175-178 | A notes line is not a hazards line. |
| FinalAnalyze.HazardsLineIsNotNotes | final_analyze.py:175-178 | A hazards line is not a notes line. |
| FinalAnalyze.Printout | final_analyze.py:156-180 | The printout opens with the item header and closes with the rule. |
| FinalAnalyze.PrintoutLines | final_analyze.py:164-180 | Every printed block is the head, the footer, or a hazards or notes line whose condition holds. |
| FinalAnalyze.PrintoutHazards | final_analyze.py:172-175 | A hazards line is printed iff the label is "Do Not Shred" or "Requires Preprocessing" and there are hazards, right after the head. |
| FinalAnalyze.PrintoutNotes | final_analyze.py:177-178 | A notes line is printed iff there are notes and the item name is not "Unknown", just before the footer. |
| RaspberryPi.DirectionOf | raspberrpypi.py:33-41 | The strings "left", "right" and "mid" are told apart from everything else. |
| RaspberryPi.Word | raspberrpypi.py:48-53 | The string handed to `move_servo` for a direction is read back as that direction. |
| RaspberryPi.ReceiveCommand | raspberrpypi.py:45-53 | The answer is "left", "right" or nothing. |
| RaspberryPi.ClassifyWords | raspberrpypi.py:48-53 | "left" iff the line contains "left". "right" iff it contains "right" but not "left". Nothing otherwise. |
| RaspberryPi.ReceiveCommandClassifies | raspberrpypi.py:45-53 | The same three cases on the raw line, lower-cased, without stripping: whitespace never matters. |
| RaspberryPi.NormalFormKeepsWords | raspberrpypi.py:47 | Stripping then lower-casing keeps exactly the whitespace-free words of the lower-cased line. |
| RaspberryPi.NormalFormIgnoresCase | raspberrpypi.py:47 | The normal form of a lower-cased line is the normal form of the line. |
| RaspberryPi.ReceiveCommandIgnoresCase | raspberrpypi.py:45-53 | The answer does not depend on letter case. |
| RaspberryPi.SentLeftUnderstood | raspberrpypi.py:46-49 | "LEFT\n", in any case, is read as left. |
| RaspberryPi.SentRightUnderstood | raspberrpypi.py:46-51 | "RIGHT\n", in any case, is read as right. |
| RaspberryPi.EmptyLineIgnored | raspberrpypi.py:47-53 | A read that times out (an empty line) asks for nothing. |
| RaspberryPi.MoveSequence | raspberrpypi.py:33-43 | left gives [Left, Mid], right gives [Right, Mid], and an unknown direction only returns to Mid; every move ends at Mid. |
| RaspberryPi.Answers | raspberrpypi.py:60-61 | One answer per line read. |
| RaspberryPi.KeptSkipsSilence | raspberrpypi.py:60-61 | Lines that classify as nothing add no direction. |
| RaspberryPi.MovesShape | raspberrpypi.py:33-43 | Each move commands one or two positions and leaves the servo in the middle. |
| RaspberryPi.MovesOfKept | raspberrpypi.py:55-64 | Left/right answers give exactly two positions each. |
| RaspberryPi.MovesOfDirections | raspberrpypi.py:55-64 | Every direction acted on swings the servo out and back: two positions each. |
| RaspberryPi.ServoRig.constructor | raspberrpypi.py:20-26 | The PWM starts at the middle position, active. |
| RaspberryPi.ServoRig.MoveServo | raspberrpypi.py:33-43 | Appends the `MoveSequence` of the direction string as `DirectionOf` reads it; the servo ends in the middle. |
| RaspberryPi.ServoRig.Cleanup | raspberrpypi.py:28-31 | Stops the rig. |
| RaspberryPi.ServoRig.Serve | raspberrpypi.py:55-68 | The positions gain one move per line that classifies, in order, and the rig is cleaned up at the end. |
| RaspberryPi.PollDirection | raspberrpypi.py:59-61 | Reads until a line classifies: every line before it was silent, or the lines ran out silent. |
| RaspberryPi.RoundKept | raspberrpypi.py:59-63 | A silent run closed by at most one direction adds exactly that direction. |
| RaspberryPi.PolledDirections | raspberrpypi.py:59-63 | One polling round adds the direction it found, if any. |
| RaspberryPi.PolledMoves | raspberrpypi.py:59-64 | One polling round adds that direction's moves. |
| RaspberryPi.ServeEndsAtMid | raspberrpypi.py:43 | After serving any input the servo rests in the middle. |
| WilliamAnalyze.FindCategorySound | william_analyze.py:14-62 | A lookup by value returns a listed member carrying that value. |
| WilliamAnalyze.FindCategoryComplete | william_analyze.py:14-62 | A lookup finds a member whenever one carries the value. |
| WilliamAnalyze.CategoryListed | william_analyze.py:14-62 | Every member is in the declaration-order list. |
| WilliamAnalyze.SignatureOfValue | william_analyze.py:14-62 | Each value's first letter, length and last letter are as tabulated. |
| WilliamAnalyze.DeviceSignatures | william_analyze.py:15-35 | The tabulated signatures of the electronics and component values. |
| WilliamAnalyze.OtherSignatures | william_analyze.py:37-62 | The tabulated signatures of the battery, cable, appliance and other values. |
| WilliamAnalyze.SignatureIdentifies | william_analyze.py:14-62 | The tabulated signature determines the member. |
| WilliamAnalyze.CategoryValueInjective | william_analyze.py:14-62 | No two categories share a value, so the enum has no aliases. |
| WilliamAnalyze.CategoryRoundTrip | william_analyze.py:14-62 | Looking up a category's value gives back the category. |
| WilliamAnalyze.CategoryParseSound | william_analyze.py:14-62 | A string that parses is the value of the category it parses to. |
| WilliamAnalyze.SafetyRoundTrip | william_analyze.py:64-68 | Looking up a safety value gives back the member. |
| WilliamAnalyze.SafetyParseSound | william_analyze.py:64-68 | A string that parses is the value of its member. |
| WilliamAnalyze.CategoryOffered | william_analyze.py:101-105 | Every category value is in the schema's list. |
| WilliamAnalyze.CategoryValuesAccepted | william_analyze.py:101-105 | The schema's category list is exactly the strings validation accepts. |
| WilliamAnalyze.SafetyValuesAccepted | william_analyze.py:106-110 | The schema's safety list is exactly the strings validation accepts. |
| WilliamAnalyze.SchemaMatchesValidation | william_analyze.py:96-163 | An answer conforms to the schema's enumerations iff it validates into the record. |
| WilliamAnalyze.ValidateKeepsAnswer | william_analyze.py:162-163 | A validated record carries the answer's strings, flags and observations. |
| WilliamAnalyze.SchemaRequiresAllProperties | william_analyze.py:111-131 | Both object levels require exactly the properties they declare, in order, and the hazards property is the eight-flag object. |
| WilliamAnalyze.GenerateProcessingReport | william_analyze.py:170-197 | Appending piece by piece builds exactly `Report`. |
| WilliamAnalyze.ReportFraming | william_analyze.py:172-195 | The report opens with the item header and ends with the closing rule. |
| WilliamAnalyze.HazardBlockEnding | william_analyze.py:184-194 | The hazard block ends in the last letter of YES or NO. |
| WilliamAnalyze.ReportListsHazards | william_analyze.py:183-194 | The report ends with the hazard block iff the safety is "Do Not Shred" or "Requires Preprocessing Before Shredding". |
| WilliamAnalyze.ReportObservations | william_analyze.py:178-179 | Only an "Unknown Device" item carries the observations, right after the item line. |
| WilliamAnalyze.Outputs | william_analyze.py:204-215 | One block of printed lines per listed image. |
| WilliamAnalyze.AnalyzeFolder | william_analyze.py:201-215 | The loop prints `FolderOutput`, and the item number ends at the listing's length: failed images count too. |
| WilliamAnalyze.FlattenBounds | william_analyze.py:204-215 | Blocks of one or two lines give between one and two lines per block. |
| WilliamAnalyze.FolderOutputLength | william_analyze.py:204-215 | Each image prints one line (a report or an error) or two (the analyser's error and the loop's). |
| WilliamAnalyze.FolderReportsNumbered | william_analyze.py:203-212 | When every answer validates, line k is the report of image k numbered k + 1. |
| SetupDemo.Clamp | setup_demo.py:86 | `max(0, min(255, v))` is a channel, unchanged inside 0..255. |
| SetupDemo.JitterStaysClose | setup_demo.py:86 | A jittered channel stays valid, within 30 of the original and on the offset's side. |
| SetupDemo.JitterColour | setup_demo.py:86 | A jittered colour is a valid colour. |
| SetupDemo.TextColour | setup_demo.py:50 | Black text iff the channel sum exceeds 384, white otherwise. |
| SetupDemo.FloorDiv | setup_demo.py:46-47 | Python's `//` by a positive divisor rounds down. |
| SetupDemo.TextCentred | setup_demo.py:41-47 | The label's left (top) margin equals the right (bottom) one or is one less, also for text wider than the image. |
| SetupDemo.CreateSampleImage | setup_demo.py:15-53 | The image keeps its fill and label, and the label is black or white. |
| SetupDemo.Palette | setup_demo.py:66-70 | Three tones per class. |
| SetupDemo.ClassImages | setup_demo.py:81-98 | Twenty images per class. |
| SetupDemo.CreateClassImages | setup_demo.py:81-98 | The inner loop builds `ClassImages`: image i from draw i, numbered i + 1. |
| SetupDemo.SetupDemoDataset | setup_demo.py:55-98 | The outer loop builds the classes in order, each after the previous ones. |
| SetupDemo.SampleInClassDir | setup_demo.py:75-97 | Every file lies under `dataset/<class>/` and ends in ".png". |
| SetupDemo.SampleColourNearPalette | setup_demo.py:83-86 | A file's colour is valid and within 30 of its palette tone, channel by channel. |
| SetupDemo.ImagePathInjective | setup_demo.py:97 | Distinct (class, number) pairs give distinct paths. |
| SetupDemo.CreatedLength | setup_demo.py:74-81 | Twenty images per class processed. |
| SetupDemo.CreatedAt | setup_demo.py:74-98 | Image i of class c sits at position 20c + i. |
| SetupDemo.DatasetShape | setup_demo.py:74-98 | Sixty images, class by class, twenty each, no two under the same path. |
| SetupDemo.DatasetPosition | setup_demo.py:74-97 | Position k holds image k mod 20 of class k div 20 and its path. |
| Text.LowerChar | utils/arduino_utils.py:26 | Upper-case ASCII letters move down by 32; everything else is unchanged. |
| Text.Lower | utils/arduino_utils.py:26 | `str.lower` maps character by character and keeps the length. |
| Text.LowerConcat | utils/arduino_utils.py:26 | Lower-casing distributes over concatenation. |
| Text.LowerIdempotent | raspberrpypi.py:47 | Lower-casing twice equals lower-casing once. |
| Text.ContainsLeft | tests/find_arduino.py:34 | A word found in a string is found in any extension of it on the right. |
| Text.ContainsRight | tests/find_arduino.py:34 | A word found in a string is found in any extension of it on the left. |
| Text.MentionsContains | raspberrpypi.py:48-50 | The left-to-right search agrees with Python's `in`. |
| Text.Strip | raspberrpypi.py:47 | `strip` never lengthens the string. |
| Text.StripTrims | raspberrpypi.py:47 | The stripped string has no whitespace at either end, and is empty iff the line was all whitespace. |
| Text.StripIsSlice | raspberrpypi.py:47 | The stripped string is one contiguous slice of the line, and everything dropped before and after it is whitespace. |
| Text.StripKeepsWords | raspberrpypi.py:47-51 | Stripping neither creates nor destroys an occurrence of a whitespace-free word. |
| Text.LowerStrip | raspberrpypi.py:47 | Lower-casing and stripping commute. |
| Text.NatToStringDigits | utils/sorter.py:128-130 | `str(n)` is all digits, one digit exactly below ten, with no leading zero. |
| Text.ParseNatToString | utils/sorter.py:128-130 | `str(n)` reads back as n. |
| Text.NatToStringInjective | auto_detect.py:83 | Distinct counts render differently. |
| Text.Pad2Digits | setup_demo.py:97 | `f"{n:02d}"` gives two digits below a hundred, reading back as n. |
| Text.Join | final_analyze.py:175 | Joining nothing gives "" and a single item gives that item. |
| Text.JoinSnoc | final_analyze.py:175 | Joining one more item onto a non-empty list adds the separator and that item. |

## Left out

- The OpenCV pipeline is left out: grey conversion, blur, frame difference, threshold, dilation and contours. Each frame is given directly by its changed area, as an unbounded real.
- The bounding boxes, overlay colours, the "Changed Area" and "Arduino: Connected" texts, the threshold thumbnail and the window calls are left out.
- `find_available_camera` and its "No camera found!" exception are not part of this model; utils/camera_utils.py is outside the core.
- The keys of the camera loops are left out: 'q' ends the run, which is modelled as the end of the frame sequence. The manual 'm' capture of auto_detect_sort.py is not modelled.
- The camera loops import an analyser module (`analyzer`, `utils/analyzer.py`) that is not part of this model. Its `analyze_one_image` is modelled by final_analyze.py's method of the same name, whose copy simple_analyzer.py defines the same class.
- Timestamps, the photo files and the `captured_photos` directory are left out. The clock reading is a field of each frame and names the record's file.
- Printing and logging are left out, except where the printed text is the behaviour: the result lines, `print_single_result`, the summary figures and the reports.
- Serial timing is left out: sleeps, baud rates beyond their storage, and the 1 s and 10 s timeouts. A timed-out read is an empty line.
- The serial library is an oracle of listed, openable and faulty ports. The model does not capture:
  - a port that opens in the probe and fails a moment later;
  - partial writes;
  - `flush` failing separately from `write`;
  - `close` failing in `disconnect`, whose bare `except` would leave the connected flag set;
  - UTF-8 encoding of the commands, which are ASCII.
- AutoDetectSort.AutoDetectorWithSorting.Run: a port is either faulty for every write or for none. A link that writes some bin lines and then fails mid-session is not modelled. In the source such a failure drops the connected flag and later sorts are skipped, so the log would hold the bin lines of a prefix of the captures. The model's log holds all bin lines or none.
- RaspberryPi.ServoRig: PWM duty-cycle values are named positions, not floats. GPIO setup and cleanup details and the serial port object are not modelled. The `KeyboardInterrupt` exit is modelled as the end of the input lines.
- RaspberryPi.ReceiveCommand: lines are given as decoded text. `decode(errors="ignore")` dropping invalid bytes is not modelled.
- Text.Lower: covers ASCII letters only; Python's Unicode case mapping is not modelled.
- Text.Strip: treats ASCII whitespace plus NEL and NBSP as space; other Unicode spaces are not modelled.
- FinalAnalyze.Summarize: the processing time and the average per image are floating point and left out. Only the counts and the failed file names are modelled.
- FinalAnalyze.Overlay: only the four schema keys of the model's answer are modelled. Extra keys the answer might carry, including ones that would overwrite `filename`, `item_num` or `error`, are not.
- FinalAnalyze.AnalyzeFolder: the existence check, `iterdir`, `is_file` and the file names are inputs. The API-key check, the prompt-file read at analyser creation and the 0.5 s pause are left out.
- WilliamAnalyze.AnalyzeFolder: the hard-coded folder listing is its `images` input. Reading the prompt file, the upload and the model call are its `Attempt` input, including the error message each raises.
- WilliamAnalyze.Report: enum members are shown by their value, as older Python versions format a `str` enum in an f-string. Newer Python versions would print the class-qualified member name, such as `ObjectCategory.SMARTPHONE`.
- WilliamAnalyze.Validate: pydantic's other checks, such as types and missing keys in the hazards object, are not modelled. Only the two enumerations, which decide whether validation succeeds, are.
- SetupDemo.CreateSampleImage: drawing pixels, the font search and the measured text box are left out. The text box is an input.
- SetupDemo.SetupDemoDataset: several steps are left out:
  - removing an existing dataset directory;
  - the Pillow import check;
  - the directory re-count printed at the end.
  The random choices are `Draw` inputs, and paths use "/" as the separator.
