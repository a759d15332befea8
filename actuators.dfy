/** The plugin calls of the home page (Howl tones, Haptics, Torch, timers) as
    events appended to a log, the sequences the page emits, and a replay of a log
    that gives the tones played and not stopped since, the torch, and the
    torch-offs scheduled so far. */
module Actuators {
  import opened Inclinacion

  /** The seven preloaded tones of the page. */
  datatype Sound =
    | AlarmaUno | AlarmaDos
    | AudioIzquierda | AudioDerecha | AudioHorizontal | AudioVertical
    | AudioError

  /** One call into a plugin. `ScheduleTorchOff(ms)` is a `Torch.disable` put on
      a timer; the timer firing is not part of the log. */
  datatype Event =
    | Stop(sound: Sound)
    | Play(sound: Sound)
    | Vibrate(durationMs: nat)
    | TorchOn
    | TorchOff
    | ScheduleTorchOff(delayMs: nat)

  /** The vibration length and the torch pulse length, both in milliseconds. */
  const VibracionMs: nat := 5000
  const LinternaMs: nat := 5000

  /** The six tones `stopAllSounds` stops; `AudioError` is not among them. */
  const OrientationTones: set<Sound> :=
    {AlarmaUno, AlarmaDos, AudioIzquierda, AudioDerecha, AudioVertical, AudioHorizontal}

  /** `stopAllSounds`: six stops, in the page's order. */
  function StopAllEvents(): (r: seq<Event>)
    ensures |r| == 6 && forall i :: 0 <= i < |r| ==> r[i].Stop? && r[i].sound in OrientationTones
    ensures forall i, j :: 0 <= i < j < |r| ==> r[i] != r[j]
  {
    [Stop(AlarmaUno), Stop(AlarmaDos), Stop(AudioIzquierda),
     Stop(AudioDerecha), Stop(AudioVertical), Stop(AudioHorizontal)]
  }

  /** `vibrar`: a vibration alone, which leaves every tone and the torch as they were. */
  function VibrarEvents(): (r: seq<Event>)
    ensures |r| == 1 && r[0].Vibrate? && r[0].durationMs == VibracionMs
    ensures forall a :: Replay(a, r) == a
  {
    [Vibrate(VibracionMs)]
  }

  /** The switch of `reproducirSonido`; a direction outside the four cases plays nothing. */
  function SwitchEvents(direccion: string): (r: seq<Event>)
    ensures r != [] <==> direccion in {Izquierda, Derecha, Vertical, Horizontal}
    ensures r != [] ==> |r| == 3 && r[0].Play? && r[1].Play? && r[2] == Vibrate(VibracionMs)
  {
    if direccion == Izquierda then [Play(AlarmaUno), Play(AudioIzquierda)] + VibrarEvents()
    else if direccion == Derecha then [Play(AlarmaDos), Play(AudioDerecha)] + VibrarEvents()
    else if direccion == Vertical then [Play(AlarmaUno), Play(AudioVertical)] + VibrarEvents()
    else if direccion == Horizontal then [Play(AlarmaDos), Play(AudioHorizontal)] + VibrarEvents()
    else []
  }

  /** `reproducirSonido`: stop all orientation tones, then the switch. */
  function ReproducirSonidoEvents(direccion: string): (r: seq<Event>)
    ensures |r| == if direccion in {Izquierda, Derecha, Vertical, Horizontal} then 9 else 6
    ensures r[..6] == StopAllEvents()
  {
    StopAllEvents() + SwitchEvents(direccion)
  }

  /** The torch pulse: on now, off after 5000 ms; it touches no tone and does
      not turn the torch off at once. */
  function TorchPulseEvents(): (r: seq<Event>)
    ensures |r| == 2 && r[0] == TorchOn && r[1] == ScheduleTorchOff(LinternaMs)
    ensures forall e :: e in r ==> !e.Stop? && !e.Play? && e != TorchOff
  {
    [TorchOn, ScheduleTorchOff(LinternaMs)]
  }

  /** `activarAlarmaError`: vibrate, the error tone, then a torch pulse. */
  function ErrorEvents(): (r: seq<Event>)
    ensures forall e :: e in r ==> !e.Stop? && e != TorchOff
    ensures Play(AudioError) in r && TorchOn in r && ScheduleTorchOff(LinternaMs) in r
  {
    VibrarEvents() + [Play(AudioError)] + TorchPulseEvents()
  }

  /** `desactivarAlarma`'s plugin calls: stop all, then the torch off at once. */
  function DisarmEvents(): (r: seq<Event>)
    ensures |r| == 7 && r[6] == TorchOff && forall i :: 0 <= i < 6 ==> r[i].Stop?
    ensures forall e :: e in r ==> !e.Play? && e != TorchOn
  {
    StopAllEvents() + [TorchOff]
  }

  /** The alert profile of an orientation: its primary and its directional tone. */
  datatype Profile = NoProfile | Profile(primary: Sound, directional: Sound)

  /** The profile table, written independently of the switch. */
  function Tonos(direccion: string): (p: Profile)
    ensures p.Profile? <==> IsOrientation(direccion) && direccion != Ninguna
    ensures p.Profile? ==> p.primary in {AlarmaUno, AlarmaDos} && p.directional in OrientationTones - {AlarmaUno, AlarmaDos}
  {
    match direccion
    case "izquierda" => Profile(AlarmaUno, AudioIzquierda)
    case "derecha" => Profile(AlarmaDos, AudioDerecha)
    case "vertical" => Profile(AlarmaUno, AudioVertical)
    case "horizontal" => Profile(AlarmaDos, AudioHorizontal)
    case _ => NoProfile
  }

  /** What a log has done to the actuators: the tones played and not stopped
      since (a tone that ends by itself is not removed, since the log holds no
      clock), whether the torch was last switched on, and how many torch-offs
      have been scheduled so far (a timer firing is not an event). */
  datatype Actuation = Actuation(unstopped: set<Sound>, torchLit: bool, scheduledTorchOffs: nat)

  function Apply(a: Actuation, e: Event): Actuation {
    match e
    case Stop(s) => a.(unstopped := a.unstopped - {s})
    case Play(s) => a.(unstopped := a.unstopped + {s})
    case Vibrate(_) => a
    case TorchOn => a.(torchLit := true)
    case TorchOff => a.(torchLit := false)
    case ScheduleTorchOff(_) => a.(scheduledTorchOffs := a.scheduledTorchOffs + 1)
  }

  /** The actuation a log leaves behind, starting from `a`. */
  function Replay(a: Actuation, log: seq<Event>): Actuation
    decreases |log|
  {
    if log == [] then a else Replay(Apply(a, log[0]), log[1..])
  }

  /** Replaying two logs one after the other is replaying their concatenation. */
  lemma {:induction false} ReplayAppend(a: Actuation, x: seq<Event>, y: seq<Event>)
    ensures Replay(a, x + y) == Replay(Replay(a, x), y)
    decreases |x|
  {
    if x != [] {
      assert (x + y)[0] == x[0];
      assert (x + y)[1..] == x[1..] + y;
      ReplayAppend(Apply(a, x[0]), x[1..], y);
    } else {
      assert x + y == y;
    }
  }

  /** Replaying a single event applies it. */
  lemma ReplayOne(a: Actuation, e: Event)
    ensures Replay(a, [e]) == Apply(a, e)
  {
    assert [e][1..] == [];
  }

  /** `stopAllSounds` stops exactly the six orientation tones and touches nothing else. */
  lemma StopAllEffect(a: Actuation)
    ensures Replay(a, StopAllEvents()) == a.(unstopped := a.unstopped - OrientationTones)
  {
    StopAllReplay(a, StopAllEvents());
  }

  /** The six stops replayed one by one. */
  lemma StopAllReplay(a: Actuation, log: seq<Event>)
    requires log == StopAllEvents()
    ensures Replay(a, log) == a.(unstopped := a.unstopped - OrientationTones)
  {
  }

  /** The switch agrees with the profile table: a direction with a profile plays
      its two tones and vibrates 5000 ms; any other direction plays nothing. */
  lemma SwitchMatchesProfile(direccion: string)
    ensures Tonos(direccion).Profile? ==>
      SwitchEvents(direccion) ==
        [Play(Tonos(direccion).primary), Play(Tonos(direccion).directional), Vibrate(VibracionMs)]
    ensures Tonos(direccion).Profile? <==> direccion in {Izquierda, Derecha, Vertical, Horizontal}
    ensures !Tonos(direccion).Profile? ==> SwitchEvents(direccion) == []
  {
  }

  /** In `reproducirSonido` every stop precedes every play, and only the six
      orientation tones are stopped. */
  lemma StopPrecedesPlay(direccion: string)
    ensures ReproducirSonidoEvents(direccion)[..6] == StopAllEvents()
    ensures forall i, j :: 0 <= i < j < |ReproducirSonidoEvents(direccion)| ==>
      !(ReproducirSonidoEvents(direccion)[i].Play? && ReproducirSonidoEvents(direccion)[j].Stop?)
  {
  }

  /** After `reproducirSonido` for an orientation, its two profile tones are the
      only orientation tones left unstopped (no two profiles overlap), an
      unstopped error tone stays unstopped, and the torch is untouched. */
  lemma ReproducirSonidoEffect(a: Actuation, direccion: string)
    requires Tonos(direccion).Profile?
    ensures Replay(a, ReproducirSonidoEvents(direccion)) ==
      a.(unstopped := (a.unstopped - OrientationTones) + {Tonos(direccion).primary, Tonos(direccion).directional})
    ensures Replay(a, ReproducirSonidoEvents(direccion)).unstopped * OrientationTones ==
      {Tonos(direccion).primary, Tonos(direccion).directional}
  {
    var p := Tonos(direccion);
    SwitchMatchesProfile(direccion);
    ReplayAppend(a, StopAllEvents(), SwitchEvents(direccion));
    StopAllEffect(a);
    var b := a.(unstopped := a.unstopped - OrientationTones);
    ReplayAppend(b, [Play(p.primary)], [Play(p.directional), Vibrate(VibracionMs)]);
    ReplayAppend(Apply(b, Play(p.primary)), [Play(p.directional)], [Vibrate(VibracionMs)]);
    ReplayOne(b, Play(p.primary));
    ReplayOne(Apply(b, Play(p.primary)), Play(p.directional));
    ReplayOne(Apply(Apply(b, Play(p.primary)), Play(p.directional)), Vibrate(VibracionMs));
    assert [Play(p.primary), Play(p.directional), Vibrate(VibracionMs)]
      == [Play(p.primary)] + ([Play(p.directional)] + [Vibrate(VibracionMs)]);
  }

  /** The error alert starts the error tone, lights the torch and schedules one
      more torch-off; it stops nothing. */
  lemma ErrorEffect(a: Actuation)
    ensures Replay(a, ErrorEvents()) ==
      Actuation(a.unstopped + {AudioError}, true, a.scheduledTorchOffs + 1)
  {
  }

  /** A torch pulse lights the torch and schedules one more torch-off. */
  lemma TorchPulseEffect(a: Actuation)
    ensures Replay(a, TorchPulseEvents()) == a.(torchLit := true, scheduledTorchOffs := a.scheduledTorchOffs + 1)
  {
  }

  /** Disarming stops the six orientation tones, but not the error tone, and
      turns the torch off at once, whatever torch-offs are scheduled. */
  lemma DisarmEffect(a: Actuation)
    ensures Replay(a, DisarmEvents()) ==
      Actuation(a.unstopped - OrientationTones, false, a.scheduledTorchOffs)
    ensures AudioError in a.unstopped ==> AudioError in Replay(a, DisarmEvents()).unstopped
  {
    ReplayAppend(a, StopAllEvents(), [TorchOff]);
    StopAllEffect(a);
    ReplayOne(a.(unstopped := a.unstopped - OrientationTones), TorchOff);
  }
}
