# MaxGate: a verified model of the cat-flap monitor

MaxGate reads an ADXL345 accelerometer fixed to a cat flap and decides whether the flap is
Closed, open to the Inside or open to the Outside. It compares each averaged measurement with
three reference vectors and picks the nearest. The reference vectors come from an interactive
calibration or from the file `states.max`. When the flap changes to Inside or Outside, the
program posts a message to Mastodon ("Max left at …", "Max has been home since …").

This project models the decision logic of `Program.cs` and proves what it does:

- `Classifier`: the nearest-reference choice of `GetFlapState`. It is a two-round elimination
  with strict `<`. The distance of a vector is abstracted as any length function that is zero
  on the zero vector and positive elsewhere.
- `Records`: the `;`-separated text of `states.max`. This covers `String.Split`, its inverse
  `Join`, and the three lines the calibration writes.
- `Store`: `InitializeFromFile`, as a loop method proved against the fold `LoadLines`.
- `Monitor`: the `while (true)` loop of `Main`, run over a finite sequence of measurements. It is
  a method proved against the specification function `NotifyLog`.
- `Notify`: the text `Toot` publishes for each state.
- `Cli`: the `-d`/`-debug` and `-c`/`-calibration` flags.
- `Startup`: how `Main` combines the flags, the file and calibration before the loop starts.

Numbers are mathematical reals. Writing a number (`ToString`) and reading it (`float.Parse`)
are function parameters. The save/load round trip assumes only that reading back each of the
nine written components gives that component, and that the written text holds no `;`.

## Behaviour worth noting

- Ties in `GetFlapState`. Both rounds compare with a strict `<`, so every tie goes to the
  later candidate. Inside beats Closed, and Outside beats either
  (`Classifier.Classify`, `Classifier.TiesFavourLaterCandidate`, `Classifier.TieDecidesForInside`).
- Global minimum. The two-round elimination always ends on a globally nearest state: the
  chosen distance is at most each of the three (`Classifier.Classify`). Only the choice among
  equally near states depends on the order of the rounds.
- Incomplete files. `InitializeFromFile` accepts an empty or incomplete `states.max`. A vector
  whose tag never appears keeps the value it came in with, and `Main` passes in the zero
  vector. With all three vectors at the origin, every measurement is classified Outside
  (`Startup.EmptyFileClassifiesOutside`).

## Model

| member | source | states |
|---|---|---|
| `Classifier.Classify` | Program.cs:204-209 | The chosen state's distance is at most each of the three distances (a global minimum). Closed exactly when it is strictly nearer than both others. Inside exactly when it is no farther than Closed and strictly nearer than Outside. Outside exactly when it is no farther than both others. |
| `Classifier.TiesFavourLaterCandidate` | Program.cs:204-208 | Equal Closed and Inside distances never give Closed. Outside tied with the round-1 winner gives Outside. |
| `Classifier.GetFlapState` | Program.cs:199-210 | The reference vector of the returned state is at least as near to the measurement as each of the three reference vectors. |
| `Classifier.ReferencesClassifyAsThemselves` | Program.cs:199-210 | Measuring the Outside reference always gives Outside. The Inside reference gives Inside when it differs from the Outside one. The Closed reference gives Closed when it differs from both. |
| `Classifier.EqualOpenReferencesNeverInside` | Program.cs:204-208 | When the Inside and Outside references coincide, no measurement is classified Inside. |
| `Classifier.CoincidentReferencesAlwaysOutside` | Program.cs:204-208 | When all three references coincide, every measurement is classified Outside. |
| `Classifier.TieBreakExample` | Program.cs:201-209 | References (0,0,0), (1,0,0), (0.5,0,0) and measurement (0.5,0,0): Closed and Inside tie, and Outside wins. |
| `Classifier.TieDecidesForInside` | Program.cs:204-208 | References (0,0,0), (1,0,0), (0.5,1,0) and measurement (0.5,0,0): Closed and Inside tie, Outside is farther, and the tie gives Inside. |
| `Records.Split` | Program.cs:175 | `String.Split` gives at least one field, and no field contains the separator. |
| `Records.SplitJoin` | Program.cs:175 | Splitting a join of separator-free fields gives back those fields. |
| `Records.JoinSplit` | Program.cs:175 | Joining the fields of any string gives back the string. |
| `Records.FormatLine` | Program.cs:156-158 | Definition of one written line `tag;x;y;z`; its properties are proved in `Records.FormatLineFields`. |
| `Records.CalibrationRecord` | Program.cs:155-158 | Definition of the three lines the calibration saves; its properties are proved in `Records.RecordShape` and `Store.LoadCalibrationRecord`. |
| `Records.FormatLineFields` | Program.cs:156-158 | A written line `tag;x;y;z` splits into exactly the tag and the three formatted components. |
| `Records.RecordShape` | Program.cs:155-158 | The calibration record has exactly three lines. They are tagged C, O and I in that order, and each holds its vector's three formatted components. |
| `Store.ParseLine` | Program.cs:175-178 | A line succeeds exactly when it has at least four fields and fields 1-3 parse. The result is the tag in field 0 and the parsed vector. The tag plays no part in success. A missing field is an index error only when every field before it parsed; otherwise the first non-number is a format error. |
| `Store.Assign` | Program.cs:179-195 | Definition of the `switch` on the tag; its properties are proved in `Store.AssignSlots` and `Store.UnknownTagChangesNothing`. |
| `Store.AssignSlots` | Program.cs:179-195 | Tags O, I and C each replace exactly the vector of their state and leave the others unchanged. |
| `Store.UnknownTagChangesNothing` | Program.cs:193-194 | Any other tag changes no vector. |
| `Store.LoadLine` | Program.cs:175-195 | Definition of one iteration of the `foreach`: parse, then assign; its properties are proved in `Store.LaterLineOverwrites` and `Store.BadLineFails`. |
| `Store.LoadLines` | Program.cs:173-196 | Definition of the whole load as a fold over the lines; its properties are proved in `Store.LoadLinesAppend`, `Store.UnseenTagKeepsValue`, `Store.BadLineFails`, `Store.DistinctTagsCommute` and `Store.LoadCalibrationRecord`. |
| `Store.InitializeFromFile` | Program.cs:169-196 | The loop over the lines gives exactly the result of the fold `LoadLines`: assignments in line order, or the first line's exception. |
| `Store.LoadLinesAppend` | Program.cs:173-196 | Loading a concatenation loads the first part, then the second from where the first left off. A failure in the first part is final. |
| `Store.LaterLineOverwrites` | Program.cs:179-192 | A well-formed line after a successful load sets its state's vector, overriding earlier lines with the same tag. |
| `Store.UnseenTagKeepsValue` | Program.cs:169-196 | A state whose tag heads no line keeps its incoming vector. |
| `Store.BadLineFails` | Program.cs:175-178 | A single malformed line anywhere fails the load, even when its tag is unknown. |
| `Store.DistinctTagsCommute` | Program.cs:179-195 | Two adjacent well-formed lines with different tags can be swapped without changing the result. |
| `Store.LoadCalibrationRecord` | Program.cs:155-159 | Loading the saved record restores all three reference vectors exactly, whatever they held before, given the number round trip on the nine components. |
| `Notify.TootMessage` | Program.cs:270-281 | Closed publishes nothing. Outside publishes a text starting "Max left at " and Inside one starting "Max has been home since ". The state and the time can be read back from the text. |
| `Notify.TootMessageInjective` | Program.cs:272-277 | Two published texts are equal only for the same state and the same time. |
| `Cli.Contains` | Program.cs:65-66 | `List.Contains` finds a flag exactly when it occurs among the arguments. |
| `Cli.DecodeOptions` | Program.cs:63-73 | Trace is on exactly when "-debug" or "-d" occurs. The file is used exactly when neither "-calibration" nor "-c" occurs. |
| `Cli.DefaultOptions` | Program.cs:63-64 | Without any of the four flags, trace is off and the file is used. |
| `Cli.OptionsDependOnFlagsOnly` | Program.cs:66-73 | Arguments in which the same flags occur give the same options: order and repetition do not matter. |
| `Cli.OtherArgumentsIgnored` | Program.cs:66-73 | Inserting an argument that is not one of the four flags changes nothing. |
| `Monitor.Step` | Program.cs:109-120 | Definition of one loop iteration after classification; its properties are proved in `Monitor.RepeatedReadingIsQuiet`, `Monitor.NotifyLogExact` and `Monitor.Run`. |
| `Monitor.RepeatedReadingIsQuiet` | Program.cs:109-120 | After any step, the same reading again does not notify. |
| `Monitor.NotifyLogExact` | Program.cs:98-121 | The log is increasing and holds exactly the readings that notify. Each is Inside or Outside and differs from the reading before it (from Closed for the first). |
| `Monitor.ClosedNeverNotifies` | Program.cs:109 | A Closed reading never notifies. |
| `Monitor.RunNotifiesOnce` | Program.cs:109-120 | A maximal run of equal non-Closed readings notifies on its first reading only. |
| `Monitor.ScenarioLogs` | Program.cs:98-121 | Inside, Inside, Closed, Outside notifies at readings 0 and 3. Inside, Closed, Inside notifies at 0 and 2. |
| `Monitor.Run` | Program.cs:98-121 | The notifying iterations are exactly `NotifyLog` of the classified states. Each posts the `Toot` text for its state and time. The final `last` is the last classified state (Closed if there was none). |
| `Startup.StartupReferences` | Program.cs:63-93 | Definition of where `Main` takes the vectors from; its properties are proved in `Startup.CalibrateThenReload`, `Startup.EmptyFileClassifiesOutside` and `Startup.NoOpenTagsNeverInside`. |
| `Startup.CalibrateThenReload` | Program.cs:63-93 | With "-c" the calibrated vectors are used. A later run without "-c" and "-calibration" loads the saved record and gets the same vectors. |
| `Startup.EmptyFileClassifiesOutside` | Program.cs:75-88 | An empty file is accepted, all vectors stay at the origin, and every measurement is then Outside. |
| `Startup.NoOpenTagsNeverInside` | Program.cs:75-88 | A file with no I or O line leaves both open vectors at the origin, so nothing is classified Inside. |

## Left out

- Sensor access over SPI and `GetFlapVector`'s average of three samples (Program.cs:78-83, 217-231) are hardware I/O and float arithmetic. Measurements enter the model as given vectors.
- `Vector3.Length` (a square root in single precision) is not computed. `GetFlapState` takes the length as a parameter, and the lemmas assume only that it is zero at the origin and positive elsewhere.
- 32-bit float rounding, NaN and infinities are left out. Components and distances are reals, so every comparison is a total order.
- The culture-dependent `float.Parse` and `ToString` are function parameters. The round trip is an assumption on the numbers written, not a proved fact.
- The interactive capture in `DoCalibration` (key press, prompts, 4-second settle periods, capture order; Program.cs:125-154, 160-166) is left out. Calibrated vectors enter `Startup` as a parameter. Only the record it writes (Program.cs:155-158) is modelled.
- `File.ReadAllLines` and `File.WriteAllLines` are left out. The file is its sequence of lines, and a missing file is not modelled.
- Mastodon authentication, `PublishStatus` and the exception `Toot` swallows (Program.cs:57-61, 273, 276, 285-289) are network calls. `Monitor.Run` returns the texts that would be posted.
- `DateTime.Now` is an input: one time stamp per iteration.
- `Thread.Sleep`, the 15-second quiet period and its countdown only delay the next measurement. The measurement sequence given to `Monitor.Run` is the one taken after those delays.
- The infinite loop is modelled over a finite prefix of measurements.
- Console output, colours, `PrintConsole`, the banner and the trace printing that `-d` enables are left out. Only the flag's value is modelled.
- The unused field `v` (Program.cs:41) is left out.
