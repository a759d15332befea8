/** The home page component: the fields the alarm updates in place and its
    handlers, with every plugin call appended to `log`. Each method is proved
    against the matching transition of module Alarma. */
module Home {
  import opened Inclinacion
  import opened Actuators
  import Alarma

  class HomePage {
    var alarmaActiva: bool
    var showModal: bool
    var ultimaOrientacion: string
    /** Orientation listeners registered with the motion plugin so far. */
    var listeners: nat
    /** Every plugin call made so far, in order. */
    var log: seq<Event>

    ghost function Snapshot(): Alarma.State
      reads this
    {
      Alarma.State(alarmaActiva, showModal, ultimaOrientacion, listeners)
    }

    ghost predicate Valid()
      reads this
    {
      Alarma.Consistent(Snapshot())
    }

    constructor ()
      ensures Valid() && Snapshot() == Alarma.Inicial && log == []
    {
      alarmaActiva := false;
      showModal := false;
      ultimaOrientacion := Ninguna;
      listeners := 0;
      log := [];
    }

    /** One plugin call. */
    method Emit(e: Event)
      modifies this`log
      ensures log == old(log) + [e]
    {
      log := log + [e];
    }

    /** `stopAllSounds`. */
    method StopAllSounds()
      modifies this`log
      ensures log == old(log) + StopAllEvents()
    {
      Emit(Stop(AlarmaUno));
      Emit(Stop(AlarmaDos));
      Emit(Stop(AudioIzquierda));
      Emit(Stop(AudioDerecha));
      Emit(Stop(AudioVertical));
      Emit(Stop(AudioHorizontal));
    }

    /** `vibrar`. */
    method Vibrar()
      modifies this`log
      ensures log == old(log) + VibrarEvents()
    {
      Emit(Vibrate(VibracionMs));
    }

    /** `reproducirSonido`. */
    method ReproducirSonido(direccion: string)
      modifies this`log
      ensures log == old(log) + ReproducirSonidoEvents(direccion)
    {
      StopAllSounds();
      if direccion == Izquierda {
        Emit(Play(AlarmaUno));
        Emit(Play(AudioIzquierda));
        Vibrar();
      } else if direccion == Derecha {
        Emit(Play(AlarmaDos));
        Emit(Play(AudioDerecha));
        Vibrar();
      } else if direccion == Vertical {
        Emit(Play(AlarmaUno));
        Emit(Play(AudioVertical));
        Vibrar();
      } else if direccion == Horizontal {
        Emit(Play(AlarmaDos));
        Emit(Play(AudioHorizontal));
        Vibrar();
      }
    }

    /** `activarAlarmaError`. */
    method ActivarAlarmaError()
      modifies this`log
      ensures log == old(log) + ErrorEvents()
    {
      Vibrar();
      Emit(Play(AudioError));
      Emit(TorchOn);
      Emit(ScheduleTorchOff(LinternaMs));
    }

    /** `desactivarAlarma`. */
    method DesactivarAlarma()
      modifies this
      ensures Valid()
      ensures Snapshot() == Alarma.DesactivarAlarma(old(Snapshot())).next
      ensures log == old(log) + Alarma.DesactivarAlarma(old(Snapshot())).out
    {
      alarmaActiva := false;
      StopAllSounds();
      Emit(TorchOff);
      ultimaOrientacion := Ninguna;
    }

    /** `iniciarMonitoreoOrientacion`: registers one more orientation listener. */
    method IniciarMonitoreoOrientacion()
      modifies this`listeners
      ensures listeners == old(listeners) + 1
    {
      listeners := listeners + 1;
    }

    /** `activarAlarma`. */
    method ActivarAlarma()
      requires Valid()
      modifies this
      ensures Valid()
      ensures Snapshot() == Alarma.ActivarAlarma(old(Snapshot())) && log == old(log)
    {
      if alarmaActiva {
        showModal := true;
      } else {
        alarmaActiva := true;
        IniciarMonitoreoOrientacion();
      }
    }

    /** `verificarPass`; `pass` is the typed candidate and `password` what the
        credential store returns. */
    method VerificarPass(pass: string, password: string)
      requires Valid()
      modifies this
      ensures Valid()
      ensures Snapshot() == Alarma.VerificarPass(old(Snapshot()), pass, password).next
      ensures log == old(log) + Alarma.VerificarPass(old(Snapshot()), pass, password).out
    {
      if pass == password {
        showModal := false;
        DesactivarAlarma();
      } else {
        ActivarAlarmaError();
      }
    }

    /** `closeModal`. */
    method CloseModal()
      requires Valid()
      modifies this
      ensures Valid()
      ensures Snapshot() == Alarma.CloseModal(old(Snapshot())) && log == old(log)
    {
      showModal := false;
    }

    /** The body of the orientation listener for one sample. */
    method OnOrientation(gamma: real, beta: real)
      requires Valid()
      modifies this
      ensures Valid()
      ensures Snapshot() == Alarma.OnSample(old(Snapshot()), Alarma.Sample(gamma, beta)).next
      ensures log == old(log) + Alarma.OnSample(old(Snapshot()), Alarma.Sample(gamma, beta)).out
    {
      if !alarmaActiva {
        return;
      }
      var nuevaOrientacion := ObtenerEstadoInclinacion(gamma, beta, MovimientoUmbral);
      if nuevaOrientacion != Ninguna && nuevaOrientacion != ultimaOrientacion {
        ReproducirSonido(nuevaOrientacion);
        ultimaOrientacion := nuevaOrientacion;
        if nuevaOrientacion == Vertical {
          Emit(TorchOn);
          Emit(ScheduleTorchOff(LinternaMs));
        }
      }
    }

    /** The motion plugin handing one sample to every registered listener in
        turn. Since arming registers a listener each time and disarming removes
        none, there may be several; the sample still alerts at most once. */
    method DeliverSample(gamma: real, beta: real)
      requires Valid()
      modifies this
      ensures Valid()
      ensures Snapshot() == Alarma.Deliver(old(Snapshot()), Alarma.Sample(gamma, beta), old(listeners)).next
      ensures log == old(log) + Alarma.Deliver(old(Snapshot()), Alarma.Sample(gamma, beta), old(listeners)).out
    {
      ghost var t := Alarma.OnSample(Snapshot(), Alarma.Sample(gamma, beta));
      Alarma.OnSampleIdempotent(Snapshot(), Alarma.Sample(gamma, beta));
      var n := listeners;
      var k := 0;
      while k < n
        invariant 0 <= k <= n && listeners == n
        invariant Valid()
        invariant k == 0 ==> Snapshot() == old(Snapshot()) && log == old(log)
        invariant k > 0 ==> Snapshot() == t.next && log == old(log) + t.out
      {
        OnOrientation(gamma, beta);
        k := k + 1;
      }
      if n > 0 {
        Alarma.DeliverOnce(old(Snapshot()), Alarma.Sample(gamma, beta), n);
      }
    }
  }
}
