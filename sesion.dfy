/** The session's registry of terminal records and the operations that change
    it in place: the recommendation that writes a record's status, the filter
    pass that refreshes the records it keeps, and the operator's override of
    the amount to reload. */
module Sesion {
  import opened Modelo
  import opened Pronostico
  import opened Flota

  /** One terminal record (a dictionary in the session). The fields no
      operation writes are constants; status, amount to reload and the merged
      recommendation are the ones updated in place. */
  class Ficha {
    const id: string
    const codigoAgencia: string
    const nombreAgencia: string
    const ubicacion: string
    const tipo: Tipo
    const saldoActual: int
    const capacidadMaxima: int
    const pronostico7dias: int
    const consumoReal: int
    const denominaciones: map<string, int>
    const ultimoAbastecimiento: string
    var estado: Estado
    var montoAbastecer: int
    var recomendacion: Option<Recomendacion>

    /** The record's current contents. */
    function Valor(): Cajero
      reads this
    {
      Cajero(id, codigoAgencia, nombreAgencia, ubicacion, tipo, saldoActual, capacidadMaxima,
             pronostico7dias, consumoReal, denominaciones, ultimoAbastecimiento,
             estado, montoAbastecer, recomendacion)
    }

    constructor (c: Cajero)
      ensures Valor() == c
    {
      id, codigoAgencia, nombreAgencia, ubicacion, tipo := c.id, c.codigoAgencia, c.nombreAgencia, c.ubicacion, c.tipo;
      saldoActual, capacidadMaxima := c.saldoActual, c.capacidadMaxima;
      pronostico7dias, consumoReal := c.pronostico7dias, c.consumoReal;
      denominaciones, ultimoAbastecimiento := c.denominaciones, c.ultimoAbastecimiento;
      estado, montoAbastecer, recomendacion := c.estado, c.montoAbastecer, c.recomendacion;
    }

    /** `c.update(recomendacion)`: merges the recommendation's keys into the record. */
    method Actualizar(rec: Recomendacion)
      modifies this
      ensures Valor() == old(Valor()).(recomendacion := Some(rec))
    {
      recomendacion := Some(rec);
    }
  }

  /** The contents of the registry's records, in order. */
  function Valores(cajeros: seq<Ficha>): (vs: seq<Cajero>)
    reads cajeros
    ensures |vs| == |cajeros|
    ensures forall k :: 0 <= k < |cajeros| ==> vs[k] == cajeros[k].Valor()
  {
    seq(|cajeros|, k requires 0 <= k < |cajeros| reads cajeros => cajeros[k].Valor())
  }

  /** No record object appears twice in the registry. */
  predicate Distintas(cajeros: seq<Ficha>)
  {
    forall i, j :: 0 <= i < j < |cajeros| ==> cajeros[i] != cajeros[j]
  }

  /** Session initialisation: one fresh record per entry of the initial data. */
  method NuevoRegistro(datos: seq<Cajero>) returns (cajeros: seq<Ficha>)
    ensures Distintas(cajeros)
    ensures Valores(cajeros) == datos
    ensures forall k :: 0 <= k < |cajeros| ==> fresh(cajeros[k])
  {
    cajeros := [];
    for i := 0 to |datos|
      invariant |cajeros| == i
      invariant Distintas(cajeros)
      invariant forall k :: 0 <= k < i ==> fresh(cajeros[k]) && cajeros[k].Valor() == datos[k]
    {
      var c := new Ficha(datos[i]);
      cajeros := cajeros + [c];
    }
  }

  /** calcular_recomendacion: computes the recommendation and writes the
      classified status into the record; nothing else in the record changes. */
  method CalcularRecomendacion(cajero: Ficha) returns (rec: Recomendacion)
    modifies cajero
    ensures rec == Recomendar(old(cajero.Valor()))
    ensures cajero.Valor() == old(cajero.Valor()).(estado := rec.estadoActualizado)
  {
    var diasRestantes := DiasDeEfectivo(cajero.Valor());
    var necesitaAbastecimiento := MenorQue(diasRestantes, 3.0) || cajero.saldoActual < cajero.pronostico7dias;
    var prioridad := Baja;
    if MenorQue(diasRestantes, 1.0) {
      prioridad := Alta;
      cajero.estado := Critico;
    } else if MenorQue(diasRestantes, 3.0) {
      prioridad := Media;
      cajero.estado := Alerta;
    } else {
      cajero.estado := Operativo;
    }
    var montoSugerido := if necesitaAbastecimiento then cajero.capacidadMaxima - cajero.saldoActual else 0;
    rec := Recomendacion(necesitaAbastecimiento, diasRestantes, montoSugerido, prioridad, cajero.estado);
  }

  /** The three tests of the filter pass for one record: agency ('todas' or
      equal code), stored status ('todos' or equal) and period ('todos', or a
      positive projected balance at day T+N, which with consumption means
      N * consumo < 7 * saldo and without it a positive balance). */
  method CumpleFiltros(c: Ficha, filtros: Filtros) returns (cumple: bool)
    ensures cumple <==> Cumple(c.Valor(), filtros)
    ensures filtros.periodo.Hasta? && c.consumoReal > 0 ==>
              (cumple <==> CumpleAgencia(c.Valor(), filtros.agencia) && CumpleEstado(c.Valor(), filtros.estado)
                           && filtros.periodo.dia * c.consumoReal < 7 * c.saldoActual)
    ensures filtros.periodo.Hasta? && c.consumoReal <= 0 ==>
              (cumple <==> CumpleAgencia(c.Valor(), filtros.agencia) && CumpleEstado(c.Valor(), filtros.estado)
                           && c.saldoActual > 0)
  {
    var cumpleAgencia := filtros.agencia.TodasAgencias? || c.codigoAgencia == filtros.agencia.codigo;
    var cumpleEstado := filtros.estado.TodosEstados? || c.estado == filtros.estado.estado;
    var cumplePeriodo := true;
    if filtros.periodo.Hasta? {
      var saldoEnDia := SaldoPorDia(c.Valor(), filtros.periodo.dia);
      cumplePeriodo := saldoEnDia > 0.0;
      TieneEfectivo(c.Valor(), filtros.periodo.dia);
    }
    cumple := cumpleAgencia && cumpleEstado && cumplePeriodo;
  }

  /** One step of the filter pass: a record that passes the filters gets its
      recommendation computed and merged in; one that fails is left alone. */
  method FiltrarFicha(c: Ficha, filtros: Filtros) returns (cumple: bool)
    modifies c
    ensures cumple <==> Cumple(old(c.Valor()), filtros)
    ensures c.Valor() == Procesar(old(c.Valor()), filtros)
  {
    cumple := CumpleFiltros(c, filtros);
    if cumple {
      var rec := CalcularRecomendacion(c);
      c.Actualizar(rec);
    }
  }

  /** The record objects at the given positions, in that order. */
  function Elegidos(cajeros: seq<Ficha>, idx: seq<nat>): (es: seq<Ficha>)
    requires forall j :: 0 <= j < |idx| ==> idx[j] < |cajeros|
    ensures |es| == |idx|
    ensures forall j :: 0 <= j < |idx| ==> es[j] == cajeros[idx[j]]
  {
    seq(|idx|, j requires 0 <= j < |idx| => cajeros[idx[j]])
  }

  lemma ElegidosMas(cajeros: seq<Ficha>, idx: seq<nat>, i: nat)
    requires forall j :: 0 <= j < |idx| ==> idx[j] < |cajeros|
    requires i < |cajeros|
    ensures Elegidos(cajeros, idx + [i]) == Elegidos(cajeros, idx) + [cajeros[i]]
  {
  }

  /** The filter pass: keeps, in registry order, the records that pass the
      agency, stored-status and period filters, and refreshes exactly those
      records in place. The list returned holds the registry's own objects. */
  method FiltrarCajeros(cajeros: seq<Ficha>, filtros: Filtros) returns (filtrados: seq<Ficha>)
    requires Distintas(cajeros)
    modifies cajeros
    ensures Valores(cajeros) == Pasada(old(Valores(cajeros)), filtros)
    ensures |filtrados| == |Pasan(old(Valores(cajeros)), filtros)|
    ensures forall j :: 0 <= j < |filtrados| ==>
              filtrados[j] == cajeros[Pasan(old(Valores(cajeros)), filtros)[j]]
  {
    ghost var v0 := Valores(cajeros);
    filtrados := [];
    for i := 0 to |cajeros|
      invariant forall k :: 0 <= k < i ==> cajeros[k].Valor() == Procesar(v0[k], filtros)
      invariant forall k :: i <= k < |cajeros| ==> cajeros[k].Valor() == v0[k]
      invariant filtrados == Elegidos(cajeros, Pasan(v0[..i], filtros))
    {
      var c := cajeros[i];
      ghost var antes := Pasan(v0[..i], filtros);
      assert forall k :: 0 <= k < |cajeros| && k != i ==> cajeros[k] != c;
      var cumple := FiltrarFicha(c, filtros);
      PasanPaso(v0, filtros, i);
      if cumple {
        ElegidosMas(cajeros, antes, i);
        filtrados := filtrados + [c];
      }
    }
    assert v0[..|cajeros|] == v0;
  }

  /** update_monto_abastecer: stores the entered amount (0 for an empty or zero
      input) in the first record with the given id, and stops there. The
      number input bounds the amount to [0, capacidadMaxima] of that record. */
  method UpdateMontoAbastecer(cajeros: seq<Ficha>, atmId: string, monto: Option<int>)
    requires Distintas(cajeros)
    requires forall k :: 0 <= k < |cajeros| && cajeros[k].id == atmId ==>
               MontoEnRango(cajeros[k].Valor(), MontoIngresado(monto))
    modifies cajeros
    ensures Valores(cajeros) == FijarMonto(old(Valores(cajeros)), atmId, MontoIngresado(monto))
    ensures MontosValidos(old(Valores(cajeros))) ==> MontosValidos(Valores(cajeros))
  {
    ghost var v0 := Valores(cajeros);
    for i := 0 to |cajeros|
      invariant forall k :: 0 <= k < i ==> v0[k].id != atmId
      invariant Valores(cajeros) == v0
    {
      if cajeros[i].id == atmId {
        cajeros[i].montoAbastecer := if monto.Some? && monto.value != 0 then monto.value else 0;
        assert PrimerIndice(v0, atmId) == Some(i);
        assert Valores(cajeros) == v0[i := v0[i].(montoAbastecer := MontoIngresado(monto))];
        return;
      }
    }
  }
}
