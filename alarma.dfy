/** The alarm controller of the home page as pure functions over its three
    fields (plus the number of registered motion listeners). A handler that
    calls plugins returns a `Transition`, the new state with the events it
    emits; arming and closing the modal call none and return the new state
    alone. The class in module Home is proved against these. */
module Alarma {
  import opened Inclinacion
  import opened Actuators

  /** `alarmaActiva`, `showModal`, `ultimaOrientacion`, and how many orientation
      listeners have been registered with the motion plugin. */
  datatype State = State(alarmaActiva: bool, showModal: bool, ultimaOrientacion: string, listeners: nat)

  /** The state after an operation and the plugin events it emitted, in order. */
  datatype Transition = Transition(next: State, out: seq<Event>)

  /** One orientation event of the motion plugin. */
  datatype Sample = Sample(gamma: real, beta: real)

  /** The page as constructed: disarmed, no modal, no last orientation, no listener. */
  const Inicial: State := State(false, false, Ninguna, 0)

  /** What every reachable state satisfies: the last orientation is one of the
      classifier's values and is empty while disarmed, and an armed page has a
      listener registered. */
  predicate Consistent(s: State) {
    && IsOrientation(s.ultimaOrientacion)
    && (!s.alarmaActiva ==> s.ultimaOrientacion == Ninguna)
    && (s.alarmaActiva ==> s.listeners > 0)
  }

  /** `activarAlarma`: arm and register a listener, or, when already armed, only
      open the password modal. `ultimaOrientacion` is never touched. */
  function ActivarAlarma(s: State): (r: State)
    ensures r.alarmaActiva && r.ultimaOrientacion == s.ultimaOrientacion
    ensures s.alarmaActiva ==> r == s.(showModal := true)
    ensures !s.alarmaActiva ==> r == s.(alarmaActiva := true, listeners := s.listeners + 1)
    ensures Consistent(s) ==> Consistent(r)
  {
    if s.alarmaActiva then s.(showModal := true)
    else s.(alarmaActiva := true, listeners := s.listeners + 1)
  }

  /** `closeModal`. */
  function CloseModal(s: State): (r: State)
    ensures !r.showModal && r.(showModal := s.showModal) == s
    ensures Consistent(s) ==> Consistent(r)
  {
    s.(showModal := false)
  }

  /** `desactivarAlarma`: disarm, stop the orientation tones, torch off,
      forget the last orientation. The listener stays registered. */
  function DesactivarAlarma(s: State): (t: Transition)
    ensures !t.next.alarmaActiva && t.next.ultimaOrientacion == Ninguna
    ensures t.next.showModal == s.showModal && t.next.listeners == s.listeners
    ensures t.out == DisarmEvents()
    ensures Consistent(t.next)
  {
    Transition(s.(alarmaActiva := false, ultimaOrientacion := Ninguna), DisarmEvents())
  }

  /** `activarAlarmaError`: only events, no field changes. */
  function ActivarAlarmaError(s: State): (t: Transition)
    ensures t.next == s && t.out == ErrorEvents()
  {
    Transition(s, ErrorEvents())
  }

  /** `verificarPass`, with the stored password as a parameter. The source does
      not look at `alarmaActiva` here. */
  function VerificarPass(s: State, pass: string, password: string): (t: Transition)
    ensures Consistent(s) ==> Consistent(t.next)
  {
    if pass == password then DesactivarAlarma(s.(showModal := false))
    else ActivarAlarmaError(s)
  }

  /** The classification the callback computes for a sample. */
  function Clasificar(x: Sample): (o: string)
    ensures IsOrientation(o)
  {
    ObtenerEstadoInclinacion(x.gamma, x.beta, MovimientoUmbral)
  }

  /** Whether the callback fires an alert for `x` in state `s`. A firing
      orientation is always one of the switch's four cases, so the switch of
      `reproducirSonido` never falls through from the callback. */
  predicate Fires(s: State, x: Sample)
    ensures Fires(s, x) ==> Clasificar(x) in {Izquierda, Derecha, Vertical, Horizontal}
  {
    s.alarmaActiva && Clasificar(x) != Ninguna && Clasificar(x) != s.ultimaOrientacion
  }

  /** The events of one fired alert: `reproducirSonido`, then the torch pulse
      for `vertical` only. */
  function AlertEvents(o: string): (r: seq<Event>)
    ensures |r| >= 6 && r[..6] == StopAllEvents()
    ensures (TorchOn in r) <==> o == Vertical
  {
    ReproducirSonidoEvents(o) + (if o == Vertical then TorchPulseEvents() else [])
  }

  /** The events of a sequence of fired alerts, one after the other. */
  function AllAlertEvents(os: seq<string>): (r: seq<Event>)
    ensures os == [] <==> r == []
    decreases |os|
  {
    if os == [] then [] else AlertEvents(os[0]) + AllAlertEvents(os[1..])
  }

  /** The body of the orientation callback: ignore samples while disarmed;
      otherwise fire when the new orientation is non-empty and differs from the
      last one, remembering it, with a torch pulse for `vertical` only. */
  function OnSample(s: State, x: Sample): (t: Transition)
    ensures t.next.alarmaActiva == s.alarmaActiva && t.next.showModal == s.showModal
    ensures t.next.listeners == s.listeners
    ensures Consistent(s) ==> Consistent(t.next)
  {
    if !s.alarmaActiva then Transition(s, [])
    else
      var nueva := Clasificar(x);
      if nueva != Ninguna && nueva != s.ultimaOrientacion then
        Transition(s.(ultimaOrientacion := nueva), AlertEvents(nueva))
      else Transition(s, [])
  }

  /** The plugin delivers a sample to every registered listener, one after the
      other; each run of the callback sees the fields the previous one left. */
  function Deliver(s: State, x: Sample, n: nat): (t: Transition)
    ensures t.next.listeners == s.listeners
    decreases n
  {
    if n == 0 then Transition(s, [])
    else
      var first := OnSample(s, x);
      var rest := Deliver(first.next, x, n - 1);
      Transition(rest.next, first.out + rest.out)
  }

  /** A stream of samples handled by one listener. */
  function Run(s: State, xs: seq<Sample>): (t: Transition)
    ensures t.next.alarmaActiva == s.alarmaActiva && t.next.listeners == s.listeners
    decreases |xs|
  {
    if xs == [] then Transition(s, [])
    else
      var first := OnSample(s, xs[0]);
      var rest := Run(first.next, xs[1..]);
      Transition(rest.next, first.out + rest.out)
  }

  /** The orientations that fired an alert over a stream of samples, in order. */
  function Alerts(s: State, xs: seq<Sample>): (r: seq<string>)
    ensures |r| <= |xs|
    ensures forall o :: o in r ==> Tonos(o).Profile?
    decreases |xs|
  {
    if xs == [] then []
    else (if Fires(s, xs[0]) then [Clasificar(xs[0])] else []) + Alerts(OnSample(s, xs[0]).next, xs[1..])
  }

  // ----- one sample -----

  /** A sample fires (emits events and records its orientation) exactly when the
      page is armed and the orientation is non-empty and new; otherwise nothing
      changes and nothing is emitted. */
  lemma SampleFiresIff(s: State, x: Sample)
    ensures OnSample(s, x).out != [] <==> Fires(s, x)
    ensures Fires(s, x) ==> OnSample(s, x).next == s.(ultimaOrientacion := Clasificar(x))
    ensures !Fires(s, x) ==> OnSample(s, x) == Transition(s, [])
  {
  }

  /** A disarmed page ignores a sample entirely. */
  lemma DisarmedSampleIgnored(s: State, x: Sample)
    requires !s.alarmaActiva
    ensures OnSample(s, x) == Transition(s, [])
  {
  }

  /** What a firing sample does to the actuators: its orientation's two tones
      are the only orientation tones left unstopped, and the torch pulses (on,
      one more scheduled off) exactly for `vertical`. */
  lemma FiredSampleEffect(s: State, x: Sample, a: Actuation)
    requires Fires(s, x)
    ensures Replay(a, OnSample(s, x).out).unstopped * OrientationTones ==
      {Tonos(Clasificar(x)).primary, Tonos(Clasificar(x)).directional}
    ensures Clasificar(x) == Vertical ==>
      Replay(a, OnSample(s, x).out).torchLit && Replay(a, OnSample(s, x).out).scheduledTorchOffs == a.scheduledTorchOffs + 1
    ensures Clasificar(x) != Vertical ==>
      Replay(a, OnSample(s, x).out).torchLit == a.torchLit && Replay(a, OnSample(s, x).out).scheduledTorchOffs == a.scheduledTorchOffs
  {
    var o := Clasificar(x);
    SwitchMatchesProfile(o);
    var pulse := if o == Vertical then TorchPulseEvents() else [];
    ReplayAppend(a, ReproducirSonidoEvents(o), pulse);
    ReproducirSonidoEffect(a, o);
    var b := Replay(a, ReproducirSonidoEvents(o));
    if o == Vertical {
      TorchPulseEffect(b);
    }
  }

  /** Handling the same sample a second time does nothing: the first run either
      ignored it or recorded its orientation as the last one. */
  lemma OnSampleIdempotent(s: State, x: Sample)
    ensures OnSample(OnSample(s, x).next, x) == Transition(OnSample(s, x).next, [])
  {
  }

  /** However many listeners are registered, a sample alerts at most once: it
      acts like a single run of the callback (and not at all with no listener). */
  lemma {:induction false} DeliverOnce(s: State, x: Sample, n: nat)
    requires n > 0
    ensures Deliver(s, x, n) == OnSample(s, x)
    decreases n
  {
    if n > 1 {
      var first := OnSample(s, x);
      DeliverOnce(first.next, x, n - 1);
      OnSampleIdempotent(s, x);
      assert first.out + [] == first.out;
    } else {
      var first := OnSample(s, x);
      assert first.out + [] == first.out;
    }
  }

  // ----- streams of samples -----

  /** A stream delivered while disarmed changes nothing and emits nothing. */
  lemma {:induction false} DisarmedRunSilent(s: State, xs: seq<Sample>)
    requires !s.alarmaActiva
    ensures Run(s, xs) == Transition(s, []) && Alerts(s, xs) == []
    decreases |xs|
  {
    if xs != [] {
      DisarmedRunSilent(s, xs[1..]);
    }
  }

  /** The alerts of a stream: none is empty, no two consecutive ones are equal,
      the first differs from the last orientation before the stream, and the
      last orientation afterwards is the last alert (unchanged if none fired). */
  lemma {:induction false} AlertsNeverRepeat(s: State, xs: seq<Sample>)
    ensures forall i :: 0 <= i < |Alerts(s, xs)| ==> Alerts(s, xs)[i] != Ninguna
    ensures forall i :: 0 <= i < |Alerts(s, xs)| - 1 ==> Alerts(s, xs)[i] != Alerts(s, xs)[i + 1]
    ensures Alerts(s, xs) != [] ==> Alerts(s, xs)[0] != s.ultimaOrientacion
    ensures Run(s, xs).next.ultimaOrientacion ==
      if Alerts(s, xs) == [] then s.ultimaOrientacion else Alerts(s, xs)[|Alerts(s, xs)| - 1]
    decreases |xs|
  {
    if xs != [] {
      var t := OnSample(s, xs[0]);
      AlertsNeverRepeat(t.next, xs[1..]);
      var rest := Alerts(t.next, xs[1..]);
      var all := Alerts(s, xs);
      assert Run(s, xs).next == Run(t.next, xs[1..]).next;
      if Fires(s, xs[0]) {
        var o := Clasificar(xs[0]);
        assert all == [o] + rest;
        assert t.next.ultimaOrientacion == o;
        forall i | 0 <= i < |all| - 1 ensures all[i] != all[i + 1] {
          if i > 0 { assert all[i] == rest[i - 1] && all[i + 1] == rest[i]; }
        }
        assert all[|all| - 1] == if rest == [] then o else rest[|rest| - 1];
      } else {
        assert t.next == s;
        assert all == rest;
      }
    }
  }

  /** The log of a stream is exactly the alert events of its alerts, in order:
      nothing is emitted between alerts, and every emission is an alert. */
  lemma {:induction false} RunEmitsAlerts(s: State, xs: seq<Sample>)
    ensures Run(s, xs).out == AllAlertEvents(Alerts(s, xs))
    decreases |xs|
  {
    if xs != [] {
      var t := OnSample(s, xs[0]);
      RunEmitsAlerts(t.next, xs[1..]);
      var rest := Alerts(t.next, xs[1..]);
      if Fires(s, xs[0]) {
        var o := Clasificar(xs[0]);
        assert Alerts(s, xs) == [o] + rest;
        assert ([o] + rest)[1..] == rest;
      } else {
        assert Alerts(s, xs) == rest;
        assert t.out == [];
        assert t.out + Run(t.next, xs[1..]).out == Run(t.next, xs[1..]).out;
      }
    }
  }

  /** A stream of identical samples alerts at most once, on its first sample. */
  lemma {:induction false} RepeatedSampleAlertsOnce(s: State, x: Sample, xs: seq<Sample>)
    requires forall i :: 0 <= i < |xs| ==> xs[i] == x
    ensures |Alerts(s, xs)| <= 1
    ensures xs != [] ==> Run(s, xs) == OnSample(s, x)
    decreases |xs|
  {
    if xs != [] {
      var t := OnSample(s, x);
      OnSampleIdempotent(s, x);
      StaysQuiet(t.next, x, xs[1..]);
      assert t.out + [] == t.out;
    }
  }

  /** Once `x` has been handled, further copies of `x` do nothing. */
  lemma {:induction false} StaysQuiet(s: State, x: Sample, xs: seq<Sample>)
    requires OnSample(s, x) == Transition(s, [])
    requires forall i :: 0 <= i < |xs| ==> xs[i] == x
    ensures Run(s, xs) == Transition(s, []) && Alerts(s, xs) == []
    decreases |xs|
  {
    if xs != [] {
      assert xs[0] == x;
      StaysQuiet(s, x, xs[1..]);
    }
  }

  /** An empty classification in between does not re-arm an orientation:
      left, dead zone, left fires once, since `''` never becomes the last one. */
  lemma LeftNoneLeftFiresOnce(s: State)
    requires s.alarmaActiva && s.ultimaOrientacion == Ninguna
    ensures Alerts(s, [Sample(-50.0, 0.0), Sample(20.0, 0.0), Sample(-50.0, 0.0)]) == [Izquierda]
  {
  }

  // ----- the password -----

  /** The right password disarms, closes the modal, forgets the last
      orientation, stops every orientation tone and turns the torch off at once;
      it does not stop the error tone of an earlier wrong attempt. A wrong one
      changes no field and fires the error alert. */
  lemma PasswordOutcome(s: State, pass: string, password: string, a: Actuation)
    ensures pass == password ==>
      && VerificarPass(s, pass, password).next == s.(alarmaActiva := false, showModal := false, ultimaOrientacion := Ninguna)
      && Replay(a, VerificarPass(s, pass, password).out) == Actuation(a.unstopped - OrientationTones, false, a.scheduledTorchOffs)
    ensures pass != password ==>
      && VerificarPass(s, pass, password).next == s
      && Replay(a, VerificarPass(s, pass, password).out) == Actuation(a.unstopped + {AudioError}, true, a.scheduledTorchOffs + 1)
  {
    if pass == password {
      DisarmEffect(a);
    } else {
      ErrorEffect(a);
    }
  }

  /** The initial page is consistent; every operation above keeps `Consistent`
      (their contracts), so a page is never disarmed with a remembered
      orientation and arming always starts from an empty last orientation. */
  lemma InitialConsistent()
    ensures Consistent(Inicial)
  {
  }
}
