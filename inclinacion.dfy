/** The orientation classifier of the home page: a tilt sample (gamma, beta) and
    a threshold are mapped to one of five orientation strings. */
module Inclinacion {

  const Izquierda: string := "izquierda"
  const Derecha: string := "derecha"
  const Vertical: string := "vertical"
  const Horizontal: string := "horizontal"
  /** The empty string: the sample matches no orientation. */
  const Ninguna: string := ""

  /** The threshold the orientation callback passes to the classifier. */
  const MovimientoUmbral: real := 15.0

  /** The five values the classifier can return. */
  predicate IsOrientation(o: string) {
    o == Izquierda || o == Derecha || o == Vertical || o == Horizontal || o == Ninguna
  }

  function Abs(x: real): real {
    if x < 0.0 then -x else x
  }

  /** True when the first test of the classifier returns a lateral orientation. */
  predicate Lateral(gamma: real, umbral: real) {
    Abs(gamma) > umbral && (gamma < -45.0 || gamma > 45.0)
  }

  /** The classifier. The lateral tests sit under the threshold test and fall
      through to the beta tests when gamma lies within [-45, 45]; the conjuncts
      `Abs(gamma) > -5` and `Abs(beta) > -10` are kept although they always hold. */
  function ObtenerEstadoInclinacion(gamma: real, beta: real, umbral: real): (r: string)
    ensures IsOrientation(r)
  {
    var lateral :=
      if Abs(gamma) > umbral then
        (if gamma < -45.0 then Izquierda else if gamma > 45.0 then Derecha else Ninguna)
      else Ninguna;
    if lateral != Ninguna then lateral
    else if Abs(beta) > 80.0 then Vertical
    else if Abs(gamma) < 5.0 && Abs(gamma) > -5.0 && Abs(beta) < 10.0 && Abs(beta) > -10.0 then Horizontal
    else Ninguna
  }

  /** Left and right: each holds exactly when gamma passes the threshold and lies
      beyond -45 or 45, whatever beta is, so they take precedence over the rest. */
  lemma LateralIff(gamma: real, beta: real, umbral: real)
    ensures ObtenerEstadoInclinacion(gamma, beta, umbral) == Izquierda <==> Abs(gamma) > umbral && gamma < -45.0
    ensures ObtenerEstadoInclinacion(gamma, beta, umbral) == Derecha <==> Abs(gamma) > umbral && gamma > 45.0
  {
  }

  /** Vertical, horizontal and none, once no lateral orientation was returned;
      every bound is strict. */
  lemma NonLateralIff(gamma: real, beta: real, umbral: real)
    ensures !Lateral(gamma, umbral) ==>
      (ObtenerEstadoInclinacion(gamma, beta, umbral) == Vertical <==> Abs(beta) > 80.0)
    ensures !Lateral(gamma, umbral) ==>
      (ObtenerEstadoInclinacion(gamma, beta, umbral) == Horizontal <==> Abs(gamma) < 5.0 && Abs(beta) < 10.0)
    ensures ObtenerEstadoInclinacion(gamma, beta, umbral) == Ninguna <==>
      !Lateral(gamma, umbral) && Abs(beta) <= 80.0 && !(Abs(gamma) < 5.0 && Abs(beta) < 10.0)
  {
  }

  /** With the callback's threshold, gamma = 45 or -45 exactly never gives a
      lateral orientation; gamma = 20, beta = 0 is in the dead zone. */
  lemma Boundaries(beta: real)
    ensures ObtenerEstadoInclinacion(45.0, beta, MovimientoUmbral) !in {Izquierda, Derecha}
    ensures ObtenerEstadoInclinacion(-45.0, beta, MovimientoUmbral) !in {Izquierda, Derecha}
    ensures ObtenerEstadoInclinacion(20.0, 0.0, MovimientoUmbral) == Ninguna
  {
  }

  /** Three concrete samples: a strong left tilt, an upright device and a flat one. */
  lemma Scenarios()
    ensures ObtenerEstadoInclinacion(-50.0, 0.0, MovimientoUmbral) == Izquierda
    ensures ObtenerEstadoInclinacion(0.0, 85.0, MovimientoUmbral) == Vertical
    ensures ObtenerEstadoInclinacion(2.0, 5.0, MovimientoUmbral) == Horizontal
  {
  }
}
