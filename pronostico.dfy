/** The forecast engine: days of cash remaining, projected balance at day T+dia,
    the 8-point availability curve and the replenishment recommendation.
    Arithmetic is exact: `/ 7` is real division, not a floating-point one. */
module Pronostico {
  import opened Modelo

  function Max0(x: real): real
  {
    if x > 0.0 then x else 0.0
  }

  /** calcular_dias_de_efectivo: infinite without consumption, otherwise the
      balance divided by the average daily consumption, floored at zero. */
  function DiasDeEfectivo(c: Cajero): (d: Dias)
    ensures d.Infinito? <==> c.consumoReal <= 0
    ensures d.Finito? ==> 0.0 <= d.valor
    ensures d.Finito? ==> d.valor * (c.consumoReal as real) == 7.0 * Max0(c.saldoActual as real)
  {
    if c.consumoReal <= 0 then Infinito
    else
      var consumoDiario := c.consumoReal as real / 7.0;
      var diasRestantes := c.saldoActual as real / consumoDiario;
      assert diasRestantes * consumoDiario == c.saldoActual as real;
      Finito(Max0(diasRestantes))
  }

  /** calcular_saldo_por_dia: the balance projected at day T+dia. Without
      consumption it is the current balance; with it, seven times the
      projection is max(0, 7 * saldo - dia * consumo), an integer. */
  function SaldoPorDia(c: Cajero, dia: nat): (s: real)
    ensures c.consumoReal <= 0 ==> s == c.saldoActual as real
    ensures c.consumoReal > 0 ==> s * 7.0 == Max0((7 * c.saldoActual - dia * c.consumoReal) as real)
  {
    if c.consumoReal <= 0 then c.saldoActual as real
    else
      var consumoDiario := c.consumoReal as real / 7.0;
      var saldoEnDia := c.saldoActual as real - consumoDiario * dia as real;
      assert saldoEnDia * 7.0 == (7 * c.saldoActual - dia * c.consumoReal) as real;
      Max0(saldoEnDia)
  }

  lemma MulMenor(x: real, y: real, z: real)
    requires z > 0.0
    ensures x < y <==> x * z < y * z
  {
    if x < y {
      assert (y - x) * z > 0.0;
    } else {
      assert (x - y) * z >= 0.0;
    }
  }

  /** MulMenor with both products already known. */
  lemma MulMenorQue(x: real, y: real, z: real, xz: real, yz: real)
    requires z > 0.0 && x * z == xz && y * z == yz
    ensures x < y <==> xz < yz
  {
    MulMenor(x, y, z);
  }

  /** "days < k" decided in integers: the days remaining fall below a positive
      bound k exactly when there is consumption and 7 * saldo < k * consumo. */
  lemma DiasMenorQue(c: Cajero, k: nat)
    requires k > 0
    ensures MenorQue(DiasDeEfectivo(c), k as real) <==>
            c.consumoReal > 0 && 7 * c.saldoActual < k * c.consumoReal
  {
    var d := DiasDeEfectivo(c);
    if c.consumoReal > 0 {
      var consumo := c.consumoReal as real;
      MulMenor(d.valor, k as real, consumo);
      if c.saldoActual <= 0 {
        assert 7 * c.saldoActual <= 0 < k * c.consumoReal;
      } else {
        assert (7 * c.saldoActual) as real == 7.0 * c.saldoActual as real;
        assert (k * c.consumoReal) as real == k as real * consumo;
      }
    }
  }

  /** Without consumption the projection is the current balance for every day;
      with consumption it never goes below zero. */
  lemma SaldoPorDiaCotas(c: Cajero, dia: nat)
    ensures c.consumoReal <= 0 ==> SaldoPorDia(c, dia) == c.saldoActual as real
    ensures c.consumoReal > 0 ==> 0.0 <= SaldoPorDia(c, dia) <= Max0(c.saldoActual as real)
  {
    if c.consumoReal > 0 {
      assert c.consumoReal as real / 7.0 * dia as real >= 0.0;
    }
  }

  /** The projected balance never increases as the day offset grows. */
  lemma {:induction false} SaldoNoCreciente(c: Cajero, d1: nat, d2: nat)
    requires d1 <= d2
    ensures SaldoPorDia(c, d2) <= SaldoPorDia(c, d1)
  {
    if c.consumoReal > 0 {
      var diario := c.consumoReal as real / 7.0;
      assert diario * d2 as real - diario * d1 as real == diario * (d2 - d1) as real;
      assert diario * (d2 - d1) as real >= 0.0;
    }
  }

  /** The projected balance at day T+dia is still positive exactly when dia is
      below the days remaining (for a finite estimate), or, without consumption,
      when the balance itself is positive; in integers, with consumption, exactly
      when dia * consumo < 7 * saldo. This ties the period filter and the
      availability curve to the days-remaining figure. */
  lemma TieneEfectivo(c: Cajero, dia: nat)
    ensures SaldoPorDia(c, dia) > 0.0 <==>
            if c.consumoReal <= 0 then c.saldoActual > 0
            else (dia as real) < DiasDeEfectivo(c).valor
    ensures SaldoPorDia(c, dia) > 0.0 <==>
            if c.consumoReal <= 0 then c.saldoActual > 0
            else dia * c.consumoReal < 7 * c.saldoActual
  {
    if c.consumoReal > 0 {
      var consumo := c.consumoReal as real;
      var v := DiasDeEfectivo(c).valor;
      var s := SaldoPorDia(c, dia);
      assert s > 0.0 <==> s * 7.0 > 0.0;
      assert (dia * c.consumoReal) as real == dia as real * consumo;
      if c.saldoActual <= 0 {
        MulMenor(v, 0.0, consumo);
        assert v == 0.0;
      } else {
        MulMenorQue(dia as real, v, consumo, (dia * c.consumoReal) as real, (7 * c.saldoActual) as real);
      }
    }
  }

  /** The 8 cells T0..T7 of the availability bar: cell d is green exactly when
      the projected balance at day T+d is positive, and the green cells come first. */
  method CurvaDisponibilidad(c: Cajero) returns (curva: seq<bool>)
    ensures |curva| == 8
    ensures forall d :: 0 <= d < 8 ==> (curva[d] <==> SaldoPorDia(c, d) > 0.0)
    ensures forall i, j :: 0 <= i <= j < 8 && curva[j] ==> curva[i]
  {
    curva := [];
    for dia := 0 to 8
      invariant |curva| == dia
      invariant forall d :: 0 <= d < dia ==> (curva[d] <==> SaldoPorDia(c, d) > 0.0)
    {
      var saldoDia := SaldoPorDia(c, dia);
      var tieneEfectivo := saldoDia > 0.0;
      curva := curva + [tieneEfectivo];
    }
    forall i, j | 0 <= i <= j < 8 && curva[j]
      ensures curva[i]
    {
      SaldoNoCreciente(c, i, j);
    }
  }

  /** Priority and status as a function of the days remaining alone: critico
      below 1 day, operativo from 3 days on (and when the estimate is
      infinite), alerta in between; each status comes with its own priority. */
  function Clasificar(d: Dias): (pe: (Prioridad, Estado))
    ensures pe.1 == Critico <==> MenorQue(d, 1.0)
    ensures pe.1 == Operativo <==> !MenorQue(d, 3.0)
    ensures d.Infinito? ==> pe.1 == Operativo
    ensures pe.0 == Alta <==> pe.1 == Critico
    ensures pe.0 == Media <==> pe.1 == Alerta
    ensures pe.0 == Baja <==> pe.1 == Operativo
  {
    if MenorQue(d, 1.0) then (Alta, Critico)
    else if MenorQue(d, 3.0) then (Media, Alerta)
    else (Baja, Operativo)
  }

  /** calcular_recomendacion's result for a terminal record, stated in
      integers: replenishment is needed when less than 3 days of cash remain
      (7 * saldo < 3 * consumo) or the balance is below the 7-day forecast;
      priority Alta/critico below 1 day, Media/alerta from 1 up to 3 days,
      Baja/operativo otherwise (including no consumption); the suggested amount
      fills the terminal to capacity when needed, else 0. */
  function Recomendar(c: Cajero): (r: Recomendacion)
    ensures r.diasRestantes == DiasDeEfectivo(c)
    ensures r.necesita <==>
              (c.consumoReal > 0 && 7 * c.saldoActual < 3 * c.consumoReal)
              || c.saldoActual < c.pronostico7dias
    ensures r.prioridad == Alta <==> c.consumoReal > 0 && 7 * c.saldoActual < c.consumoReal
    ensures r.prioridad == Media <==>
              c.consumoReal > 0 && c.consumoReal <= 7 * c.saldoActual < 3 * c.consumoReal
    ensures r.prioridad == Baja <==> c.consumoReal <= 0 || 3 * c.consumoReal <= 7 * c.saldoActual
    ensures r.estadoActualizado == Critico <==> r.prioridad == Alta
    ensures r.estadoActualizado == Alerta <==> r.prioridad == Media
    ensures r.estadoActualizado == Operativo <==> r.prioridad == Baja
    ensures r.montoSugerido == (if r.necesita then c.capacidadMaxima - c.saldoActual else 0)
  {
    DiasMenorQue(c, 1);
    DiasMenorQue(c, 3);
    var dias := DiasDeEfectivo(c);
    var necesita := MenorQue(dias, 3.0) || c.saldoActual < c.pronostico7dias;
    var (prioridad, estado) := Clasificar(dias);
    var monto := if necesita then c.capacidadMaxima - c.saldoActual else 0;
    Recomendacion(necesita, dias, monto, prioridad, estado)
  }

  /** Fewer than 3 days of cash always triggers a recommendation, whatever the
      forecast; an infinite estimate never satisfies the days clause, so then
      only the balance-versus-forecast comparison decides. */
  lemma NecesitaSiPocosDias(c: Cajero)
    ensures MenorQue(DiasDeEfectivo(c), 3.0) ==> Recomendar(c).necesita
    ensures c.consumoReal <= 0 ==>
              (Recomendar(c).necesita <==> c.saldoActual < c.pronostico7dias)
  {
  }

  /** The suggested amount is non-negative as long as the balance does not
      exceed the capacity; the engine does not clamp it otherwise. */
  lemma MontoSugeridoNoNegativo(c: Cajero)
    requires c.saldoActual <= c.capacidadMaxima
    ensures Recomendar(c).montoSugerido >= 0
    ensures Recomendar(c).montoSugerido <= c.capacidadMaxima - c.saldoActual
  {
  }

  /** Two records with the same days remaining get the same priority and
      status, whatever their forecast, capacity or stored status. */
  lemma EstadoSoloDependeDeDias(c1: Cajero, c2: Cajero)
    requires DiasDeEfectivo(c1) == DiasDeEfectivo(c2)
    ensures Recomendar(c1).prioridad == Recomendar(c2).prioridad
    ensures Recomendar(c1).estadoActualizado == Recomendar(c2).estadoActualizado
  {
  }
}
