/** Data model of the ATM fleet: one record per cash terminal ("cajero"), the
    recommendation the forecast engine attaches to it, and the closed sets of
    statuses, priorities and terminal kinds that the dashboard uses as strings. */
module Modelo {

  datatype Option<T> = None | Some(value: T)

  /** 'reciclador' accepts deposits and dispenses; 'retiro' only dispenses.
      Informational: no formula depends on it. */
  datatype Tipo = Reciclador | Retiro

  /** The stored 'estado' of a terminal: 'critico', 'alerta' or 'operativo'. */
  datatype Estado = Critico | Alerta | Operativo

  /** The recommendation's 'prioridad': 'Alta', 'Media' or 'Baja'. */
  datatype Prioridad = Alta | Media | Baja

  /** Days of cash remaining: a non-negative number, or infinity when the
      terminal has no recorded consumption. */
  datatype Dias = Finito(valor: real) | Infinito

  /** Python's `dias < k` for a number of days that may be infinite
      (infinity is never below a finite bound). */
  predicate MenorQue(d: Dias, k: real)
  {
    d.Finito? && d.valor < k
  }

  /** The dictionary returned by calcular_recomendacion and merged into the
      terminal record by the filter pass. */
  datatype Recomendacion = Recomendacion(
    necesita: bool,
    diasRestantes: Dias,
    montoSugerido: int,
    prioridad: Prioridad,
    estadoActualizado: Estado)

  /** One terminal record at a given moment. `recomendacion` is None until a
      filter pass has merged a recommendation into the record. */
  datatype Cajero = Cajero(
    id: string,
    codigoAgencia: string,
    nombreAgencia: string,
    ubicacion: string,
    tipo: Tipo,
    saldoActual: int,
    capacidadMaxima: int,
    pronostico7dias: int,
    consumoReal: int,
    denominaciones: map<string, int>,
    ultimoAbastecimiento: string,
    estado: Estado,
    montoAbastecer: int,
    recomendacion: Option<Recomendacion>)

  /** The amount an operator may enter for a terminal: the number-input
      widget bounds it to [0, capacidadMaxima]. */
  predicate MontoEnRango(c: Cajero, monto: int)
  {
    0 <= monto <= c.capacidadMaxima
  }

  /** Every terminal of the registry carries an amount within its widget bounds. */
  predicate MontosValidos(vs: seq<Cajero>)
  {
    forall k :: 0 <= k < |vs| ==> MontoEnRango(vs[k], vs[k].montoAbastecer)
  }
}
