# A verified model of the music-learning page's front-end logic

The page (`script.js`) is a music-education web app. Its home screen is a
rotary dial ("disco giratório"). The user flings the disc with the mouse, and
when the needle stops at one of the compass buttons the app opens a section:
the tuner, the courses, the instruments or the ranking. This project models
the self-contained logic of the page in Dafny and proves properties of it.

- **Dial** (`dial.dfy`) models the dial controller. It covers the per-frame
  physics with drag, friction 0.985 and a perpetual creep at 0.25°/frame,
  the stall guard, and the mouse handlers with the ±180° wrap-around
  correction. It also covers locking on release, the `detectButton` argmax
  with its 15° tolerance, and the dispatch from a button's compass class to
  a tab. The class `RotaryDial` holds the page's global dial variables as
  fields. Each handler is proved equal to a pure step function on a
  `DialState` value, and the properties are proved about those functions.
- **Tuner** (`tuner.dfy`) models the chromatic tuner. It covers the RMS
  silence gate, the brute-force autocorrelation over lags 20..999, the
  one-pole smoothing filter (α = 0.2), note naming with JavaScript's
  truncating `%`, and the row of eleven markers. The class `PitchTracker`
  holds the marker array, the note label, `lastFreq` and the `running` flag.
- **Courses** (`courses.dfy`) models three rules:
  - which module card can be opened;
  - how a module is appended to the completed list without duplicates;
  - how the module-13 exercise counts the notes transcribed correctly.
- **Quiz** (`quiz.dfy`) models the `QuizSystem` class. It covers the quiz
  data, one scored answer per question, the 30-second countdown, and the
  rounded percentage with the 70% pass mark.
- **Keyboard** (`keyboard.dfy`) models `buildKeyboard`, the layout of the
  white and black keys of the virtual piano from C2 to B6.
- **Accessibility** (`accessibility.dfy`) models the font-size multiplier,
  which is clamped to [0.7, 2], and the four-way colour-filter toggle.

The model uses exact arithmetic: unbounded integers and exact reals.
Transcendental browser functions are parameters of the model:
- Pointer angles come from `atan2` and arrive as numbers.
- The needle/button dot products come from `cos`, `sin` and `hypot` and are
  supplied by the caller.
- The note number and cents come from `log2`, `pow` and `round`, through
  the `quantise` function.

`acos(dot) <= 15°` is expressed as `cos 15° <= dot <= 1`. The upper bound is
there because `Math.acos` gives NaN above 1, and then the comparison is false.

## Model

| member | source | states |
|---|---|---|
| Dial.DetectButton | script.js:325-349 | None exactly when no button is within 15° of the needle; otherwise a button within 15° whose dot product is at least every other within-tolerance button's, and strictly greater than that of every earlier one (ties go to the first) |
| Dial.Scan | script.js:330-347 | the `forEach` scan with `bestDot` starting at -2: from any prefix state meeting the scan invariant it ends with none exactly when no button is within 15°, otherwise the earliest maximal within-tolerance button |
| Dial.DetectButtonIsEarliestBest | script.js:344-346 | the earliest maximal within-tolerance button is always the one returned, so the contract determines the answer |
| Dial.GoToTabFromButton | script.js:446-451 | a chosen tab's class is on the button and no class tested earlier ("norte", "sul", "sudoeste", "oeste" in that order) is |
| Dial.NoCompassClassNoTab | script.js:446-451 | the button leads nowhere exactly when it has none of the four compass classes |
| Dial.CompassButtonsRoundTrip | script.js:446-451 | each compass button opens its own tab (afinador, cursos, instrumentos, ranking), and the four classes are distinct |
| Dial.FreeSpinVelocity | script.js:360-368 | above the creep speed, friction keeps the sign and strictly reduces the speed; at or below it, the velocity becomes lastSpinSign × 0.25; the speed never drops below 0.985 × 0.25 |
| Dial.RotationStep | script.js:353-369 | `updateRotation`: a paused frame changes nothing. A dragging frame without movement sets velocity 0 and keeps the rotation. A dragging frame with movement adds the velocity and records its sign when it is non-zero. Both dragging cases clear movedThisFrame. A free frame applies friction or creep and adds the new velocity. lastSpinSign stays ±1, and no other field changes |
| Dial.FrameStep | script.js:371-387 | `spin`: a locked dial is left entirely unchanged; otherwise the physics frame runs and the highlight becomes `detectButton` at the new rotation, or none when the viewport is 768 px or narrower |
| Dial.Frames | script.js:353-369 | n frames of updateRotation keep the recorded direction ±1 |
| Dial.FreeFramesAreRotationSteps | script.js:360-368 | undragged and unpaused, n frames of updateRotation give the velocity FreeFrames(v, sign, n) with the same recorded direction, so the spin-down lemmas are facts about the frame step |
| Dial.CreepIsFixedPoint | script.js:365-367 | the creep velocity ±0.25 is unchanged by any number of free frames |
| Dial.SpinDownKeepsDirection | script.js:361-367 | spinning down in the recorded direction never stops, reverses or speeds up the disc |
| Dial.SettlesIntoCreep | script.js:360-368 | a speed of at most 0.25 × (1 + 0.015 n) has become exactly the creep after n + 1 free frames |
| Dial.SpinDownFromTen | script.js:360-368 | a disc released at 10°/frame keeps turning forwards and is creeping at exactly 0.25 by frame 2601 at the latest (an upper bound from SettlesIntoCreep's linear estimate, not the first creeping frame) |
| Dial.CreepFollowsRecordedDirection | script.js:356-367 | the creep takes the direction recorded in dragging frames, not the current velocity: velocity -1 with recorded direction +1 is creeping at +0.25 by frame 201 at the latest (an upper bound) |
| Dial.WrapDelta | script.js:412-414 | the corrected change differs from the raw one by 0 or ±360, lies in [-180, 180] for raw changes in [-540, 540], and equals the raw change when it is already in [-180, 180] |
| Dial.WrapAcrossSeam | script.js:412-414 | a move from 179° to -179° counts as +2 and the reverse move as -2, not ∓358 |
| Dial.MouseDownStep | script.js:391-397 | ignored on a viewport of 768 px or less; otherwise starts a drag at the pointer angle and unlocks, changing nothing else |
| Dial.MouseMoveStep | script.js:409-418 | ignored unless dragging; otherwise velocity = 1.5 × the wrapped change (so within ±270), lastAngle = the new angle, movedThisFrame set, nothing else changed |
| Dial.MouseUpStep | script.js:398-408 | ignored unless dragging; otherwise ends the drag and locks exactly when some button is within 15° |
| Dial.RotaryDial.constructor | script.js:305-316 | the page's initial dial state: at rest, unlocked, not paused, recorded direction +1 |
| Dial.RotaryDial.UpdateRotation | script.js:353-369 | the new state is RotationStep of the old one |
| Dial.RotaryDial.Spin | script.js:371-387 | the new state is FrameStep of the old one |
| Dial.RotaryDial.TogglePause | script.js:2713-2720 | the tonearm click flips isPaused and nothing else |
| Dial.RotaryDial.OnMouseDown | script.js:391-397 | the new state is MouseDownStep of the old one |
| Dial.RotaryDial.OnMouseMove | script.js:409-418 | the new state is MouseMoveStep of the old one |
| Dial.RotaryDial.OnMouseUp | script.js:398-408 | the new state is MouseUpStep of the old one, and the tab navigated to is GoToTabFromButton of the detected button, or none |
| Dial.FlickReleasedWithinFrame | script.js:353-418 | pressing, moving 10° backwards and releasing before the next frame leaves velocity -15 with recorded direction +1, so the disc creeps forwards by free frame 3935 at the latest (an upper bound) |
| Tuner.JsRem12 | script.js:2395 | JavaScript `n % 12`: in (-12, 12), with the sign of n, and congruent to n modulo 12 |
| Tuner.ShiftedRemainder | script.js:2395 | `(n % 12 + 12) % 12` with truncating `%` equals the mathematical residue of n |
| Tuner.PitchClass | script.js:2395 | the note-name index is in [0, 12) and is the residue of the note number, negative numbers included |
| Tuner.Octave | script.js:2396 | `floor(n / 12) - 1` is the octave o with 12(o + 1) <= n < 12(o + 2), negative numbers included |
| Tuner.FreqToNote | script.js:2391-2400 | the name is one of the twelve note names |
| Tuner.NameIndex | script.js:2393 | finds a name's position in the note-name table, or reports it is not a note name |
| Tuner.NoteNamesDistinct | script.js:2393 | the twelve note names are distinct |
| Tuner.NoteNamingRoundTrip | script.js:2393-2396 | the name and octave determine the note number: decoding the reading of any n gives back n |
| Tuner.NoteNumberRoundTrip | script.js:2393-2396 | the note number 12(octave + 1) + index reads as that name and octave |
| Tuner.A4IsReference | script.js:2392-2397 | note 69 is A in octave 4, and it is the one note whose exponent in `440 · 2^((n-69)/12)` is 0 |
| Tuner.NoteFreqExponent | script.js:2397 | the exponent (n - 69)/12 of the note frequency is positive exactly above note 69 and zero exactly at 69 |
| Tuner.ExponentPerOctave | script.js:2397 | twelve semitones up adds 1 to the exponent, so the note frequency doubles per octave |
| Tuner.OctaveUp | script.js:2395-2396 | twelve semitones up gives the same name one octave higher |
| Tuner.Steps | script.js:2409 | at most 5 markers light on a side |
| Tuner.MarkerShades | script.js:2405-2413 | 11 markers, all first reset. The centre is lit, and white, exactly when \|cents\| < 5. No other marker is white. Markers light only on the side of the deviation: grey #999 at distance 1–2 and #666 at distance 3–5. Nothing is lit for 5 <= \|cents\| < 10. From 50 cents the whole side is lit |
| Tuner.LitMarkers | script.js:2405-2413 | the lit markers are exactly one block next to the centre: the centre alone when in tune, otherwise min(5, floor(\|cents\|/10)) markers on the deviation's side |
| Tuner.Smooth | script.js:2421-2427 | the first frequency passes through; afterwards the output's distance to the new frequency is 0.8 × the previous output's, so the output lies between the two |
| Tuner.SmoothRepeatError | script.js:2424-2426 | fed a constant frequency n times, the error is 0.8^n times the initial error |
| Tuner.SmoothingConverges | script.js:2424-2426 | fed a constant frequency n times, the error is at most the initial error / (1 + n/4): the filter converges |
| Tuner.Silent | script.js:2432-2435 | the silence gate without a square root: sum of squares < 0.0001 × length; an empty buffer is never silent, as 0/0 is NaN and NaN < 0.01 is false |
| Tuner.SilentIsRmsGate | script.js:2432-2435 | for a non-empty buffer and rms the square root of the mean square, the gate holds exactly when rms < 0.01 |
| Tuner.SumSquares | script.js:2433 | the energy sum is non-negative |
| Tuner.BestLagUnique | script.js:2437-2441 | at most one lag satisfies the detector's choice (positive, maximal, first of its value) |
| Tuner.Energy | script.js:2432-2435 | the energy loop computes the sum of squares of the buffer |
| Tuner.Autocorrelate | script.js:2438-2439 | the inner loop computes Σ b[i]·b[i+lag] over i < length - lag, and 0 when the lag reaches past the buffer |
| Tuner.FindBestLag | script.js:2436-2441 | -1 (with correlation 0) exactly when no lag in [20, 1000) has positive correlation; otherwise the first lag of maximal positive correlation, with its correlation |
| Tuner.PitchTracker.constructor | script.js:2377-2387 | `createMarkers`: 11 fresh markers with no colour set; microphone off, filter empty |
| Tuner.PitchTracker.ResetTuner | script.js:2416-2419 | label "--" and every marker #555 |
| Tuner.PitchTracker.UpdateTunerDisplay | script.js:2402-2415 | the label shows the note and the markers become MarkerShades(cents) |
| Tuner.PitchTracker.SmoothFreq | script.js:2421-2427 | returns Smooth(lastFreq, freq) and stores it as lastFreq |
| Tuner.PitchTracker.StartMic | script.js:2451-2463 | once the microphone is granted, detection is running |
| Tuner.PitchTracker.StopMic | script.js:2464-2469 | detection stops and the display is reset |
| Tuner.PitchTracker.DetectPitch | script.js:2429-2449 | Not running: nothing changes. RMS < 0.01: the display is reset and there is no estimate. No positive correlation: nothing changes. Otherwise the best lag gives sampleRate / lag. That value is smoothed, stored, named and shown |
| Courses.ModuleCard | script.js:516-530 | a card is done exactly when its id is completed; a done card opens; a card that does not open is neither module 1 nor after a completed module |
| Courses.SequentialUnlock | script.js:516-530 | with modules 1..k completed, exactly modules 1..k+1 can be opened and exactly 1..k are done |
| Courses.AddCompleted | script.js:489-491 | the module is in the list afterwards; the list gains nothing else, keeps its order as a prefix, grows by at most one and stays duplicate-free |
| Courses.AddCompletedIdempotent | script.js:489-491 | completing a module a second time leaves the list unchanged |
| Courses.CountCorrect | script.js:2317-2324 | the loop counts the positions whose choice equals the melody's note (MatchCount) |
| Courses.MatchCountBound | script.js:2317-2324 | the count over the first k choices is at most k, and is k exactly when all k match |
| Courses.MatchCountPastEnd | script.js:2317-2324 | choices beyond the melody's 24 notes never count |
| Courses.ExerciseComplete | script.js:2328 | the count equals 24 exactly when the first 24 choices spell the melody |
| Quiz.GetQuizData | script.js:2735-2770 | quizzes exist exactly for modules 1 and 2, with two questions each whose answer is one of their options |
| Quiz.Percentage | script.js:2904-2905 | `Math.round(score / total × 100)` lies in [0, 100] and is the rounded-half-up value; it reaches 70 exactly when 200·score >= 139·total |
| Quiz.TwoQuestionPassMark | script.js:2904-2905 | a two-question quiz is passed only with both answers right |
| Quiz.QuizSystem.constructor | script.js:2725-2732 | no quiz, question 0, score 0, no time, no timer, no answer |
| Quiz.QuizSystem.StartQuiz | script.js:2772-2784 | unknown module: nothing changes; otherwise the first question, score 0, 30 seconds, countdown running, no answer yet |
| Quiz.QuizSystem.SelectAnswer | script.js:2840-2880 | a second answer is ignored. A first answer is recorded. For an answerable question it scores exactly when it is the right option and stops the countdown. The score never exceeds the questions answered |
| Quiz.QuizSystem.NextQuestion | script.js:2891-2898 | moves one question on; within the quiz, 30 fresh seconds with the countdown running and no answer |
| Quiz.QuizSystem.TimerTick | script.js:2935-2960 | one second off a running countdown, which stops when it reaches 0; answer and score are untouched |
| Quiz.QuizSystem.FinishQuiz | script.js:2900-2905 | percentage in [0, 100]; passed exactly when it is at least 70, that is when 200·score >= 139·questions |
| Quiz.LateAnswerStillScores | script.js:2956-2968 | after the 30 seconds run out, clicking the right option still scores 1 |
| Keyboard.NoteName | script.js:3246 | the name is the note followed by the octave's digit |
| Keyboard.BuildKeyboard | script.js:3230-3273 | without the containers no key is built; otherwise the white row is the 35 keys C2..B6 at 40·k px and the black row is the 25 sharps C#2..A#6 |
| Keyboard.BlackKeySharpensWhiteKey | script.js:3258-3263 | each black key is the sharp of the white key it starts over (letter + '#', same octave), 26 px to its right and inside it |
| Keyboard.SharpsSkipEAndB | script.js:3238-3263 | a white key has a black key at its offset + 26 exactly when it is not an E or a B |
| Keyboard.KeyNamesDistinct | script.js:3246-3262 | all 60 key names are distinct |
| Accessibility.Increased | script.js:3444 | "A+" adds 0.1 up to the cap of 2, keeps the multiplier within [0.7, 2], and never lowers it |
| Accessibility.Decreased | script.js:3450 | "A-" removes 0.1 down to the floor of 0.7, keeps the multiplier within [0.7, 2], and never raises it |
| Accessibility.IncreasedTimesClamps | script.js:3444 | n presses of "A+" give min(m + 0.1 n, 2) |
| Accessibility.DecreasedTimesClamps | script.js:3450 | n presses of "A-" give max(m - 0.1 n, 0.7) |
| Accessibility.FontRangeFromDefault | script.js:3422-3451 | over exact reals, from the initial 1, ten presses reach 200% (nine do not) and three presses down reach 70% (two do not) |
| Accessibility.DecreaseUndoesIncrease | script.js:3444-3450 | below the cap, "A-" undoes "A+" |
| Accessibility.ScaledFontSize | script.js:3432-3440 | every element's font size stays between 70% and 200% of its original size |
| Accessibility.NextFilter | script.js:3511 | the filter index goes to the next filter, wrapping from the last to the first |
| Accessibility.FilterCycle | script.js:3511 | n presses move the filter n places around the cycle of four |
| Accessibility.FilterPeriodIsFour | script.js:3502-3511 | four presses bring back the current filter, and fewer never do |
| Accessibility.Settings.constructor | script.js:3422-3508 | multiplier 1 and the first filter |
| Accessibility.Settings.IncreaseFont | script.js:3443-3446 | the multiplier becomes Increased of the old one |
| Accessibility.Settings.DecreaseFont | script.js:3449-3452 | the multiplier becomes Decreased of the old one |
| Accessibility.Settings.ToggleColorFilter | script.js:3510-3513 | the next filter is selected and applied to the page body |

## Left out

- Firestore, authentication and ranking code (`updateUserScore`, `loadUserData`, `initRanking`, the score and progress transactions) are network calls. `AddCompleted` models only the list update inside the transaction. Modules are integers here, while the page stores them as strings, so `parseInt(id) - 1` becomes `id - 1`.
- Audio capture and playback (getUserMedia, AudioContext, the analyser, the Tone.js samplers, speech synthesis and the screen reader) are foreign APIs. `StartMic` models only the `running` flag being set after a successful grant, and `DetectPitch` receives the sample buffer and the sample rate as parameters.
- Tuner.A4IsReference: `Math.pow` is not modelled, so the lemma proves that note 69's exponent is 0 and not that `440 · 2^0` evaluates to 440.
- Tuner.FreqToNote: `log2`, `pow` and `round` (the note number and cents of a frequency) are not modelled. They come from the caller's `quantise`, so the model does not check that the cents are within ±50 of the note.
- Dial: `atan2`, `cos`, `sin`, `hypot` and `acos` are not modelled. Angles and dot products are inputs, and `OnMouseMove`/`OnMouseDown` take angles in [-180, 180] as `atan2` returns them.
- Floating point: all arithmetic is exact reals, not IEEE doubles. The dial's frame numbers (2601 from 10°/frame, 201 from -1, 3935 from -15) are upper bounds from a linear estimate, not the frames at which the creep starts.
- Accessibility.FontRangeFromDefault: holds over exact reals only. In doubles, "A+" from 1 also reaches 2 after ten presses, because `Math.min` caps 2.000000000000001. But "A-" goes 0.9, 0.8, 0.7000000000000001, so on the page three presses stay just above the 0.7 floor, and the fourth press reaches it.
- DOM rendering: colours, texts, CSS classes, the cents label text, lesson HTML and the quiz's feedback are not modelled. Markers are modelled by their shade, and keys by their note name and left offset. The page elements (disc, buttons, lesson panel, tuner arc, note label) are assumed present.
- Timers and scheduling: `requestAnimationFrame`, `setInterval` and `setTimeout` are not modelled. One `Spin` or `DetectPitch` call is one frame, and one `TimerTick` is one second of the countdown. Quiz.QuizSystem.StartQuiz: starting a quiz again while its countdown runs starts a second interval without clearing the first (script.js:2772-2784, 2935-2947), so two intervals tick. The model has a single `timerRunning` flag, so it does not capture that leaked handle or concurrency between handlers.
- Quiz.QuizSystem.FinishQuiz: saving progress on a pass and rendering the result are left out; the method returns the percentage and the verdict.
- The course progress bar percentage (script.js:503) and the tab switch animations are rendering, not logic.
- sw.js (the service-worker cache) is not part of this model.
- The accessibility panel's show/hide toggle and the screen-reader on/off switch only flip a flag that drives DOM listeners and speech; they are not modelled.
