# alarmaRobo home page alarm, modelled in Dafny

The home page of alarmaRobo is a phone anti-theft alarm. Once armed it listens
to the motion plugin's orientation events, classifies each tilt sample
(`gamma`, `beta`) as `izquierda`, `derecha`, `vertical`, `horizontal` or `''`,
and, when the orientation is new, plays that direction's two tones, vibrates
for 5000 ms and, for `vertical`, pulses the torch. Typing the right password
disarms it; a wrong one fires an error alert.

The project has four modules:

- `Inclinacion` (`inclinacion.dfy`): the classifier `obtenerEstadoInclinacion`
  as a pure function over ideal `real` angles. It comes with lemmas for each
  outcome, both directions of every "iff".
- `Actuators` (`actuators.dfy`): every plugin call (Howl `play`/`stop`,
  `Haptics.vibrate`, `Torch.enable`/`disable`, a `setTimeout` torch-off) as an
  `Event` appended to a log. It gives the event sequences each helper emits, an
  alert-profile table, and a `Replay` of a log. The replay yields the tones
  played and not stopped since, whether the torch was last switched on, and how
  many torch-offs have been scheduled so far.
- `Alarma` (`alarma.dfy`): the controller's fields `alarmaActiva`, `showModal`
  and `ultimaOrientacion` as a `State`, plus the number of registered motion
  listeners. Each handler is a pure function. A handler that calls plugins
  returns a `Transition`: the new state and the events it emits. Arming and
  closing the modal call no plugin and return only the new state. Lemmas cover
  single samples, streams of samples and the password check.
- `Home` (`home.dfy`): the component itself, a class `HomePage` whose methods
  update those fields in place and append to `log`. Each method is proved
  against the matching `Alarma` transition and keeps the invariant `Valid()`.

Behaviour kept as the code has it:

- `ultimaOrientacion` is reset on disarm only; `activarAlarma` leaves it as it
  is. `Alarma.Consistent` shows that a disarmed page always has
  `ultimaOrientacion == ''`, so arming always starts from an empty last
  orientation and the difference cannot be observed.
- The callback plays only when the orientation changed (the comment at
  `home.page.ts:92`), and a `''` classification is not a change: it neither
  fires nor updates `ultimaOrientacion`. So left, dead zone, left fires once
  (`Alarma.LeftNoneLeftFiresOnce`).
- `verificarPass` does not look at `alarmaActiva`. A right password while
  disarmed still stops the orientation tones and turns the torch off; a wrong
  one still fires the error alert (`Alarma.PasswordOutcome`).
- `stopAllSounds` does not stop `audioError`. A correct password therefore does
  not stop an earlier error tone (`Alarma.PasswordOutcome`,
  `Actuators.DisarmEffect`).
- Every `activarAlarma` from the disarmed state registers a new motion
  listener, and `desactivarAlarma` removes none. The model counts listeners
  and proves that a sample handed to all of them still alerts at most once
  (`Alarma.DeliverOnce`, `Home.HomePage.DeliverSample`).

## Model

| member | source | states |
|---|---|---|
| `Inclinacion.ObtenerEstadoInclinacion` | src/app/home/home.page.ts:104-112 | the result is always one of the five orientation strings |
| `Inclinacion.LateralIff` | src/app/home/home.page.ts:105-108 | `izquierda` iff abs(gamma) > threshold and gamma < -45; `derecha` iff abs(gamma) > threshold and gamma > 45; beta does not matter, so these take precedence |
| `Inclinacion.NonLateralIff` | src/app/home/home.page.ts:109-111 | with no lateral outcome: `vertical` iff abs(beta) > 80; `horizontal` iff abs(gamma) < 5 and abs(beta) < 10; `''` iff neither lateral, nor vertical, nor horizontal |
| `Inclinacion.Boundaries` | src/app/home/home.page.ts:104-111 | with threshold 15, gamma = 45 or -45 never gives a lateral orientation; (20, 0) falls in the dead zone and gives `''` |
| `Inclinacion.Scenarios` | src/app/home/home.page.ts:104-111 | (-50, 0) is `izquierda`, (0, 85) is `vertical`, (2, 5) is `horizontal` |
| `Actuators.StopAllEvents` | src/app/home/home.page.ts:145-152 | six stops, no two alike, each of one of the six orientation tones |
| `Actuators.VibrarEvents` | src/app/home/home.page.ts:141-143 | one vibration of 5000 ms, which leaves every tone and the torch as they were |
| `Actuators.SwitchEvents` | src/app/home/home.page.ts:117-138 | the switch emits something iff the direction is one of the four orientations, and then two plays and a 5000 ms vibration |
| `Actuators.ReproducirSonidoEvents` | src/app/home/home.page.ts:114-139 | the dispatch starts with the six stops; nine events for the four orientations, six otherwise |
| `Actuators.TorchPulseEvents` | src/app/home/home.page.ts:96-99 | torch on, then a torch-off scheduled in 5000 ms; no tone is touched and the torch is not turned off at once |
| `Actuators.ErrorEvents` | src/app/home/home.page.ts:162-167 | the error alert plays `audioError`, lights the torch and schedules a torch-off, and stops nothing |
| `Actuators.DisarmEvents` | src/app/home/home.page.ts:155-158 | disarming emits six stops and then the torch off, and plays nothing |
| `Actuators.Tonos` | src/app/home/home.page.ts:117-138 | exactly the four orientations have an alert profile: a primary tone (`alarmaUno` or `alarmaDos`) and a directional tone |
| `Actuators.StopAllEffect` | src/app/home/home.page.ts:145-152 | replaying the stop-all removes exactly the six orientation tones from the unstopped ones, keeps `audioError` and leaves the torch alone |
| `Actuators.SwitchMatchesProfile` | src/app/home/home.page.ts:117-138 | the switch plays the profile table's primary and directional tone, then vibrates 5000 ms, for exactly the four orientations; any other direction plays nothing |
| `Actuators.StopPrecedesPlay` | src/app/home/home.page.ts:114-152 | a sound dispatch begins with the six stops, and no stop follows any play |
| `Actuators.ReproducirSonidoEffect` | src/app/home/home.page.ts:114-152 | after a dispatch for an orientation, its two profile tones are the only orientation tones played and not stopped since; an unstopped error tone stays so, and the torch is unaffected |
| `Actuators.ErrorEffect` | src/app/home/home.page.ts:162-167 | the error alert adds the error tone to the unstopped ones, lights the torch and schedules one more torch-off, stopping nothing |
| `Actuators.TorchPulseEffect` | src/app/home/home.page.ts:96-99 | the vertical torch pulse lights the torch now and schedules one torch-off |
| `Actuators.DisarmEffect` | src/app/home/home.page.ts:154-160 | disarming stops the orientation tones but not the error tone, and turns the torch off at once whatever torch-offs were scheduled |
| `Alarma.ActivarAlarma` | src/app/home/home.page.ts:57-65 | after arming the page is always armed and `ultimaOrientacion` is untouched; an armed page only opens the modal; a disarmed one registers one more listener; consistency is kept |
| `Alarma.CloseModal` | src/app/home/home.page.ts:77-79 | only `showModal` changes, to false |
| `Alarma.DesactivarAlarma` | src/app/home/home.page.ts:154-160 | disarmed, last orientation `''`, modal and listeners unchanged, stop-all then torch-off emitted; the result is always consistent |
| `Alarma.ActivarAlarmaError` | src/app/home/home.page.ts:162-167 | the error path changes no field and emits the error sequence |
| `Alarma.VerificarPass` | src/app/home/home.page.ts:67-75 | the password check keeps the state consistent |
| `Alarma.Fires` | src/app/home/home.page.ts:83-91 | a sample that fires always classifies as one of the switch's four orientations, so the switch never falls through from the callback |
| `Alarma.Clasificar` | src/app/home/home.page.ts:85-89 | the callback's classification (threshold 15) is always one of the five strings |
| `Alarma.OnSample` | src/app/home/home.page.ts:83-100 | a sample never changes `alarmaActiva`, `showModal` or the listeners, and keeps the state consistent |
| `Alarma.Deliver` | src/app/home/home.page.ts:81-101 | handing a sample to every registered listener leaves the listener count unchanged |
| `Alarma.Run` | src/app/home/home.page.ts:82-101 | a stream of samples never arms, disarms or registers anything |
| `Alarma.AlertEvents` | src/app/home/home.page.ts:93-99 | one alert starts with the six stops, and lights the torch iff the orientation is `vertical` |
| `Alarma.AllAlertEvents` | src/app/home/home.page.ts:91-99 | a sequence of alerts emits something iff it is non-empty |
| `Alarma.Alerts` | src/app/home/home.page.ts:89-94 | a stream fires at most one alert per sample, and every fired orientation has an alert profile |
| `Alarma.RunEmitsAlerts` | src/app/home/home.page.ts:82-101 | everything a stream of samples emits is the alert events of its fired orientations, one after the other, and nothing else |
| `Alarma.SampleFiresIff` | src/app/home/home.page.ts:89-94 | a sample emits events iff the page is armed and the orientation is non-empty and differs from `ultimaOrientacion`; then exactly `ultimaOrientacion` becomes that orientation, otherwise nothing changes |
| `Alarma.DisarmedSampleIgnored` | src/app/home/home.page.ts:83 | a sample delivered while disarmed changes no field and emits nothing |
| `Alarma.FiredSampleEffect` | src/app/home/home.page.ts:91-99 | after a firing sample its orientation's two tones are the only orientation tones played and not stopped since; the torch pulses iff the orientation is `vertical` |
| `Alarma.OnSampleIdempotent` | src/app/home/home.page.ts:91-94 | handling the same sample twice in a row, the second time does nothing |
| `Alarma.DeliverOnce` | src/app/home/home.page.ts:81-101 | with one or more listeners registered, delivering a sample acts like a single run of the callback |
| `Alarma.DisarmedRunSilent` | src/app/home/home.page.ts:83 | any stream of samples while disarmed changes nothing and fires no alert |
| `Alarma.AlertsNeverRepeat` | src/app/home/home.page.ts:89-94 | over any stream, fired orientations are non-empty, no two consecutive ones are equal, the first differs from the prior last orientation, and the final `ultimaOrientacion` is the last fired one |
| `Alarma.RepeatedSampleAlertsOnce` | src/app/home/home.page.ts:89-94 | a stream of identical samples fires at most once and acts like its first sample |
| `Alarma.StaysQuiet` | src/app/home/home.page.ts:89-94 | once a sample has been handled, further copies of it do nothing |
| `Alarma.LeftNoneLeftFiresOnce` | src/app/home/home.page.ts:89-94 | from an armed page with empty last orientation, left, dead zone, left fires `izquierda` once |
| `Alarma.PasswordOutcome` | src/app/home/home.page.ts:67-75 | right password: disarmed, modal closed, last orientation `''`, orientation tones stopped, torch off; wrong password: no field changes, error tone played, torch lit, one more torch-off scheduled |
| `Alarma.InitialConsistent` | src/app/home/home.page.ts:21-24 | the freshly built page satisfies the state invariant |
| `Home.HomePage.constructor` | src/app/home/home.page.ts:21-24 | a new page is disarmed, modal closed, last orientation `''`, no listener, empty log |
| `Home.HomePage.StopAllSounds` | src/app/home/home.page.ts:145-152 | appends the six stops in source order |
| `Home.HomePage.Vibrar` | src/app/home/home.page.ts:141-143 | appends one 5000 ms vibration |
| `Home.HomePage.ReproducirSonido` | src/app/home/home.page.ts:114-139 | appends the stop-all, then the direction's tones and vibration |
| `Home.HomePage.ActivarAlarmaError` | src/app/home/home.page.ts:162-167 | appends vibrate, error tone, torch on, torch-off in 5000 ms; no field changes |
| `Home.HomePage.DesactivarAlarma` | src/app/home/home.page.ts:154-160 | new fields and log as the `Alarma` disarm transition gives; keeps `Valid()` |
| `Home.HomePage.IniciarMonitoreoOrientacion` | src/app/home/home.page.ts:81-82 | registers one more listener |
| `Home.HomePage.ActivarAlarma` | src/app/home/home.page.ts:57-65 | fields as `Alarma.ActivarAlarma` gives, log unchanged, `Valid()` kept |
| `Home.HomePage.VerificarPass` | src/app/home/home.page.ts:67-75 | fields and log as `Alarma.VerificarPass` gives, `Valid()` kept |
| `Home.HomePage.CloseModal` | src/app/home/home.page.ts:77-79 | fields as `Alarma.CloseModal` gives, log unchanged |
| `Home.HomePage.OnOrientation` | src/app/home/home.page.ts:82-100 | fields and log as `Alarma.OnSample` gives, `Valid()` kept |
| `Home.HomePage.DeliverSample` | src/app/home/home.page.ts:81-101 | running the callback once per registered listener gives the fields and log of `Alarma.Deliver`, which alerts at most once |

## Left out

- Session and navigation (`cerrarSesion`, the logout call, the router, the loading indicator) are UI plumbing outside the alarm.
- The stored password is a parameter of `VerificarPass`. The credential service behind `getPassword` is not part of this model, and neither is the two-way binding that fills `pass`.
- Plugin internals: Howl loading of the sound files, and the Torch, Haptics and Motion plugins. Each call is only an event in the log.
- Timers: a `setTimeout` torch-off is logged as `ScheduleTorchOff(5000)` and counted as scheduled in `Replay`. Its firing, and the race between overlapping pulses, are not modelled, because there is no clock.
- A tone's natural end is not modelled. The Howls are not looped, so each tone stops by itself when its file ends; with no clock, `Replay` keeps a tone in `unstopped` until a `Stop` for it.
- Listener removal in `ngOnDestroy` and the subscription handle are left out. The model counts registered listeners and starts at the callback body.
- Angles are ideal reals. Floating point, and `NaN` or missing angles from the sensor, are not modelled.
- `Alarma.VerificarPass`: its own contract states only that consistency is kept. What each branch does is stated in `Alarma.PasswordOutcome` and by `Home.HomePage.VerificarPass`.
