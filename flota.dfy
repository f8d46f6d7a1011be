/** Fleet queries over the registry, stated on the values of the terminal
    records: the conjunctive agency / status / period filter, the per-status
    counter of the sidebar buttons, the pending-reload aggregate and the
    lookup behind the operator override. */
module Flota {
  import opened Modelo
  import opened Pronostico

  /** 'todas' or one agency code. */
  datatype FiltroAgencia = TodasAgencias | Agencia(codigo: string)

  /** 'todos' or one stored status. */
  datatype FiltroEstado = TodosEstados | SoloEstado(estado: Estado)

  /** 'todos' or 't-N', N being the day offset read from the option key. */
  datatype FiltroPeriodo = TodosPeriodos | Hasta(dia: nat)

  datatype Filtros = Filtros(agencia: FiltroAgencia, estado: FiltroEstado, periodo: FiltroPeriodo)

  predicate CumpleAgencia(c: Cajero, f: FiltroAgencia)
  {
    f.TodasAgencias? || c.codigoAgencia == f.codigo
  }

  /** Tested against the status stored in the record before this pass. */
  predicate CumpleEstado(c: Cajero, f: FiltroEstado)
  {
    f.TodosEstados? || c.estado == f.estado
  }

  /** A 't-N' filter keeps a record whose day-N balance is positive; in
      integers, a record without consumption needs a positive balance, one
      with consumption needs N days of it to stay below seven days' balance. */
  predicate CumplePeriodo(c: Cajero, f: FiltroPeriodo)
    ensures f.Hasta? ==> (CumplePeriodo(c, f) <==>
                          if c.consumoReal <= 0 then c.saldoActual > 0
                          else f.dia * c.consumoReal < 7 * c.saldoActual)
  {
    f.TodosPeriodos? || (TieneEfectivo(c, f.dia); SaldoPorDia(c, f.dia) > 0.0)
  }

  /** The conjunction of the three tests. Under the session's initial filters
      ('todas', 'todos', 'todos') every record passes. */
  predicate Cumple(c: Cajero, f: Filtros)
    ensures f.agencia.TodasAgencias? && f.estado.TodosEstados? && f.periodo.TodosPeriodos? ==> Cumple(c, f)
  {
    CumpleAgencia(c, f.agencia) && CumpleEstado(c, f.estado) && CumplePeriodo(c, f.periodo)
  }

  /** The positions, in registry order, of the records that pass the filters. */
  function Pasan(vs: seq<Cajero>, f: Filtros): (idx: seq<nat>)
    ensures forall j :: 0 <= j < |idx| ==> idx[j] < |vs| && Cumple(vs[idx[j]], f)
    ensures forall k :: 0 <= k < |vs| && Cumple(vs[k], f) ==> k in idx
    ensures forall i, j :: 0 <= i < j < |idx| ==> idx[i] < idx[j]
  {
    if vs == [] then []
    else
      var n := |vs| - 1;
      Pasan(vs[..n], f) + (if Cumple(vs[n], f) then [n] else [])
  }

  /** One more record at the end of the prefix adds its position when it passes. */
  lemma PasanPaso(vs: seq<Cajero>, f: Filtros, i: nat)
    requires i < |vs|
    ensures Pasan(vs[..i + 1], f) == Pasan(vs[..i], f) + (if Cumple(vs[i], f) then [i] else [])
  {
    assert vs[..i + 1][..i] == vs[..i];
  }

  predicate Creciente(idx: seq<nat>)
  {
    forall i, j :: 0 <= i < j < |idx| ==> idx[i] < idx[j]
  }

  /** Two strictly increasing sequences with the same elements are equal. */
  lemma {:induction false} CrecientesIguales(a: seq<nat>, b: seq<nat>)
    requires Creciente(a) && Creciente(b)
    requires forall x :: x in a <==> x in b
    ensures a == b
  {
    assert b == [] || b[0] in b;
    if a != [] {
      var m := a[|a| - 1];
      assert m in b;
      var n := b[|b| - 1];
      assert n in a;
      assert m == n;
      var a', b' := a[..|a| - 1], b[..|b| - 1];
      forall x
        ensures x in a' <==> x in b'
      {
        if x in a' {
          assert x < m;
          assert x in b;
        }
        if x in b' {
          assert x < n;
          assert x in a;
        }
      }
      CrecientesIguales(a', b');
      assert a == a' + [m] && b == b' + [n];
    }
  }

  /** Pasan is the only increasing list of positions that holds exactly the
      passing records. */
  lemma PasanUnico(vs: seq<Cajero>, f: Filtros, idx: seq<nat>)
    requires Creciente(idx)
    requires forall j :: 0 <= j < |idx| ==> idx[j] < |vs| && Cumple(vs[idx[j]], f)
    requires forall k :: 0 <= k < |vs| && Cumple(vs[k], f) ==> k in idx
    ensures Pasan(vs, f) == idx
  {
    CrecientesIguales(Pasan(vs, f), idx);
  }

  /** A record after calcular_recomendacion has written its status and the
      recommendation has been merged into it. */
  function Refrescar(c: Cajero): (d: Cajero)
    ensures d.recomendacion == Some(Recomendar(c))
    ensures d.estado == Recomendar(c).estadoActualizado
    ensures d.(estado := c.estado, recomendacion := c.recomendacion) == c
    ensures Recomendar(d) == Recomendar(c)
  {
    var r := Recomendar(c);
    assert DiasDeEfectivo(c.(estado := r.estadoActualizado, recomendacion := Some(r))) == DiasDeEfectivo(c);
    c.(estado := r.estadoActualizado, recomendacion := Some(r))
  }

  /** What one filter pass does to one record: a passing record gets its own
      recommendation; only status and recommendation can change. */
  function Procesar(c: Cajero, f: Filtros): (d: Cajero)
    ensures Cumple(c, f) ==> d.recomendacion == Some(Recomendar(c))
    ensures Cumple(c, f) ==> d.estado == Recomendar(c).estadoActualizado
    ensures !Cumple(c, f) ==> d == c
    ensures d.(estado := c.estado, recomendacion := c.recomendacion) == c
  {
    if Cumple(c, f) then Refrescar(c) else c
  }

  /** The registry after one filter pass: passing records refreshed, the others untouched. */
  function Pasada(vs: seq<Cajero>, f: Filtros): (ws: seq<Cajero>)
    ensures |ws| == |vs|
    ensures forall k :: 0 <= k < |vs| && !Cumple(vs[k], f) ==> ws[k] == vs[k]
  {
    seq(|vs|, k requires 0 <= k < |vs| => Procesar(vs[k], f))
  }

  /** Refreshing twice is refreshing once: the recommendation reads neither the
      stored status nor an earlier recommendation. */
  lemma RefrescarIdempotente(c: Cajero)
    ensures Refrescar(Refrescar(c)) == Refrescar(c)
  {
    assert DiasDeEfectivo(Refrescar(c)) == DiasDeEfectivo(c);
  }

  /** Running the same filter pass again leaves the registry as the first pass left it. */
  lemma PasadaIdempotente(vs: seq<Cajero>, f: Filtros)
    ensures Pasada(Pasada(vs, f), f) == Pasada(vs, f)
  {
    var ws := Pasada(vs, f);
    forall k | 0 <= k < |vs|
      ensures Pasada(ws, f)[k] == ws[k]
    {
      if Cumple(vs[k], f) {
        RefrescarIdempotente(vs[k]);
      }
    }
  }

  /** The records that pass a second identical pass are among those that passed
      the first: a refreshed record may leave a status view, none can enter it. */
  lemma {:induction false} SegundaPasadaSubconjunto(vs: seq<Cajero>, f: Filtros, k: nat)
    requires k in Pasan(Pasada(vs, f), f)
    ensures k in Pasan(vs, f)
  {
    var ws := Pasada(vs, f);
    assert k < |ws| && Cumple(ws[k], f);
  }

  /** Without a status filter the pass does not change which records pass. */
  lemma {:induction false} SinFiltroEstadoEstable(vs: seq<Cajero>, f: Filtros)
    requires f.estado.TodosEstados?
    ensures Pasan(Pasada(vs, f), f) == Pasan(vs, f)
  {
    if vs != [] {
      var n := |vs| - 1;
      var ws := Pasada(vs, f);
      assert Pasada(vs[..n], f) == ws[..n];
      SinFiltroEstadoEstable(vs[..n], f);
      assert DiasDeEfectivo(Refrescar(vs[n])) == DiasDeEfectivo(vs[n]);
      assert Cumple(ws[n], f) == Cumple(vs[n], f);
    }
  }

  /** The period filter only narrows: the 't-N' view is exactly the 'todos'
      view's records whose projected balance at day N is still positive. */
  lemma {:induction false} PeriodoEsSubconjunto(vs: seq<Cajero>, a: FiltroAgencia, e: FiltroEstado, dia: nat)
    ensures Pasan(vs, Filtros(a, e, Hasta(dia))) ==
            ConSaldoEn(vs, Pasan(vs, Filtros(a, e, TodosPeriodos)), dia)
  {
    if vs != [] {
      var n := |vs| - 1;
      var todos := Pasan(vs[..n], Filtros(a, e, TodosPeriodos));
      PeriodoEsSubconjunto(vs[..n], a, e, dia);
      ConSaldoEnPrefijo(vs, todos, dia);
      ConSaldoEnConcat(vs, todos, if Cumple(vs[n], Filtros(a, e, TodosPeriodos)) then [n] else [], dia);
    }
  }

  /** The positions of `idx` whose record still has cash at day T+dia. */
  function ConSaldoEn(vs: seq<Cajero>, idx: seq<nat>, dia: nat): seq<nat>
  {
    if idx == [] then []
    else
      var k := idx[|idx| - 1];
      ConSaldoEn(vs, idx[..|idx| - 1], dia) +
        (if k < |vs| && SaldoPorDia(vs[k], dia) > 0.0 then [k] else [])
  }

  lemma {:induction false} ConSaldoEnConcat(vs: seq<Cajero>, a: seq<nat>, b: seq<nat>, dia: nat)
    ensures ConSaldoEn(vs, a + b, dia) == ConSaldoEn(vs, a, dia) + ConSaldoEn(vs, b, dia)
    decreases |b|
  {
    if b != [] {
      var m := |b| - 1;
      assert (a + b)[..|a + b| - 1] == a + b[..m];
      ConSaldoEnConcat(vs, a, b[..m], dia);
    } else {
      assert a + b == a;
    }
  }

  /** Positions below |vs| - 1 see the same record in vs and in vs without its last element. */
  lemma {:induction false} ConSaldoEnPrefijo(vs: seq<Cajero>, idx: seq<nat>, dia: nat)
    requires vs != []
    requires forall j :: 0 <= j < |idx| ==> idx[j] < |vs| - 1
    ensures ConSaldoEn(vs, idx, dia) == ConSaldoEn(vs[..|vs| - 1], idx, dia)
  {
    if idx != [] {
      ConSaldoEnPrefijo(vs, idx[..|idx| - 1], dia);
    }
  }

  /** contar_filtrados: how many records have the given stored status and pass
      the agency filter (the figure on each status button). */
  function ContarFiltrados(vs: seq<Cajero>, a: FiltroAgencia, e: Estado): (n: nat)
    ensures n <= |vs|
    ensures n == 0 <==> forall k :: 0 <= k < |vs| ==> !(vs[k].estado == e && CumpleAgencia(vs[k], a))
  {
    if vs == [] then 0
    else
      var n := |vs| - 1;
      assert forall k :: 0 <= k < n ==> vs[..n][k] == vs[k];
      ContarFiltrados(vs[..n], a, e) +
        (if vs[n].estado == e && CumpleAgencia(vs[n], a) then 1 else 0)
  }

  /** Each button's count is the number of cards that pressing it shows
      (with the period filter on 'todos'), since both read the stored status. */
  lemma {:induction false} ContarEsTamanoDelFiltro(vs: seq<Cajero>, a: FiltroAgencia, e: Estado)
    ensures ContarFiltrados(vs, a, e) == |Pasan(vs, Filtros(a, SoloEstado(e), TodosPeriodos))|
  {
    if vs != [] {
      ContarEsTamanoDelFiltro(vs[..|vs| - 1], a, e);
    }
  }

  /** The three status buttons together count every record of the agency view. */
  lemma {:induction false} ContarParticion(vs: seq<Cajero>, a: FiltroAgencia)
    ensures ContarFiltrados(vs, a, Critico) + ContarFiltrados(vs, a, Alerta)
            + ContarFiltrados(vs, a, Operativo)
            == |Pasan(vs, Filtros(a, TodosEstados, TodosPeriodos))|
  {
    if vs != [] {
      ContarParticion(vs[..|vs| - 1], a);
    }
  }

  /** A record counts toward the reload summary when its stored status is
      critico or alerta and its operator-entered amount is positive. */
  predicate PorAbastecer(c: Cajero)
  {
    (c.estado == Critico || c.estado == Alerta) && c.montoAbastecer > 0
  }

  /** cajeros_para_abastecer: the whole registry's records to be reloaded, in order. */
  function ParaAbastecer(vs: seq<Cajero>): (ps: seq<Cajero>)
    ensures forall c :: c in ps <==> c in vs && PorAbastecer(c)
    ensures |ps| <= |vs|
  {
    if vs == [] then []
    else
      var n := |vs| - 1;
      ParaAbastecer(vs[..n]) + (if PorAbastecer(vs[n]) then [vs[n]] else [])
  }

  /** The list holds each pending record exactly as many times as the registry
      does and nothing else, which fixes the count the summary shows. */
  lemma {:induction false} ParaAbastecerCuenta(vs: seq<Cajero>)
    ensures forall c :: multiset(ParaAbastecer(vs))[c] == if PorAbastecer(c) then multiset(vs)[c] else 0
  {
    if vs != [] {
      var n := |vs| - 1;
      ParaAbastecerCuenta(vs[..n]);
      assert vs == vs[..n] + [vs[n]];
    }
  }

  /** The sum of the amounts; positive amounts give a positive sum unless the
      list is empty. */
  function SumaMontos(ps: seq<Cajero>): (t: int)
    ensures (forall c :: c in ps ==> c.montoAbastecer > 0) ==> (t >= 0 && (t > 0 <==> ps != []))
  {
    if ps == [] then 0
    else
      assert forall c :: c in ps[..|ps| - 1] ==> c in ps;
      SumaMontos(ps[..|ps| - 1]) + ps[|ps| - 1].montoAbastecer
  }

  /** total_abastecer: never negative, and positive exactly when some record
      is listed for reload (the test that shows the summary). */
  function TotalAbastecer(vs: seq<Cajero>): (t: int)
    ensures t >= 0
    ensures t > 0 <==> |ParaAbastecer(vs)| > 0
  {
    SumaMontos(ParaAbastecer(vs))
  }

  /** What one record adds to the total: its amount when it is pending, else nothing. */
  function Aporte(c: Cajero): int
  {
    if PorAbastecer(c) then c.montoAbastecer else 0
  }

  function SumaAportes(vs: seq<Cajero>): int
  {
    if vs == [] then 0 else SumaAportes(vs[..|vs| - 1]) + Aporte(vs[|vs| - 1])
  }

  lemma {:induction false} SumaMontosConcat(a: seq<Cajero>, b: seq<Cajero>)
    ensures SumaMontos(a + b) == SumaMontos(a) + SumaMontos(b)
    decreases |b|
  {
    if b == [] {
      assert a + b == a;
    } else {
      assert (a + b)[..|a + b| - 1] == a + b[..|b| - 1];
      SumaMontosConcat(a, b[..|b| - 1]);
    }
  }

  /** The total is the sum, over the whole registry, of each record's contribution. */
  lemma {:induction false} TotalEsSumaDeAportes(vs: seq<Cajero>)
    ensures TotalAbastecer(vs) == SumaAportes(vs)
  {
    if vs != [] {
      var n := |vs| - 1;
      TotalEsSumaDeAportes(vs[..n]);
      SumaMontosConcat(ParaAbastecer(vs[..n]), if PorAbastecer(vs[n]) then [vs[n]] else []);
    }
  }

  /** When no record is pending (operativo, or no positive amount) the total is 0. */
  lemma {:induction false} SinPendientesTotalCero(vs: seq<Cajero>)
    requires forall k :: 0 <= k < |vs| ==> !PorAbastecer(vs[k])
    ensures ParaAbastecer(vs) == []
    ensures TotalAbastecer(vs) == 0
  {
    if vs != [] {
      SinPendientesTotalCero(vs[..|vs| - 1]);
    }
  }

  lemma {:induction false} SumaAportesCambio(vs: seq<Cajero>, k: nat, c: Cajero)
    requires k < |vs|
    ensures SumaAportes(vs[k := c]) == SumaAportes(vs) - Aporte(vs[k]) + Aporte(c)
  {
    var n := |vs| - 1;
    if k == n {
      assert vs[k := c][..n] == vs[..n];
    } else {
      assert vs[k := c][..n] == vs[..n][k := c];
      SumaAportesCambio(vs[..n], k, c);
    }
  }

  /** Changing one record changes the total by that record's contribution only;
      in particular an operativo record contributes nothing whatever its amount. */
  lemma TotalTrasCambio(vs: seq<Cajero>, k: nat, c: Cajero)
    requires k < |vs|
    ensures TotalAbastecer(vs[k := c]) == TotalAbastecer(vs) - Aporte(vs[k]) + Aporte(c)
    ensures c.estado == Operativo && vs[k].estado == Operativo ==>
              TotalAbastecer(vs[k := c]) == TotalAbastecer(vs)
  {
    TotalEsSumaDeAportes(vs);
    TotalEsSumaDeAportes(vs[k := c]);
    SumaAportesCambio(vs, k, c);
  }

  /** With every amount within its widget bounds, the total never exceeds
      the sum of the capacities of the registry. */
  lemma {:induction false} TotalAcotado(vs: seq<Cajero>)
    requires MontosValidos(vs)
    ensures 0 <= TotalAbastecer(vs) <= SumaCapacidades(vs)
  {
    TotalEsSumaDeAportes(vs);
    AportesAcotados(vs);
  }

  function SumaCapacidades(vs: seq<Cajero>): int
  {
    if vs == [] then 0 else SumaCapacidades(vs[..|vs| - 1]) + vs[|vs| - 1].capacidadMaxima
  }

  lemma {:induction false} AportesAcotados(vs: seq<Cajero>)
    requires MontosValidos(vs)
    ensures 0 <= SumaAportes(vs) <= SumaCapacidades(vs)
  {
    if vs != [] {
      AportesAcotados(vs[..|vs| - 1]);
    }
  }

  /** The position of the first record with the given id, if any. */
  function PrimerIndice(vs: seq<Cajero>, id: string): (r: Option<nat>)
    ensures r.None? <==> forall k :: 0 <= k < |vs| ==> vs[k].id != id
    ensures r.Some? ==> r.value < |vs| && vs[r.value].id == id
    ensures r.Some? ==> forall j :: 0 <= j < r.value ==> vs[j].id != id
  {
    if vs == [] then None
    else if vs[0].id == id then Some(0)
    else
      match PrimerIndice(vs[1..], id)
      case None => None
      case Some(k) => Some(k + 1)
  }

  /** The value update_monto_abastecer stores: the entered amount, or 0 when
      the input is empty or zero. */
  function MontoIngresado(monto: Option<int>): (m: int)
    ensures monto.None? ==> m == 0
    ensures monto == Some(0) ==> m == 0
    ensures monto.Some? ==> m == monto.value
  {
    if monto.Some? && monto.value != 0 then monto.value else 0
  }

  /** The registry after the override: the first record with the id gets the
      amount and nothing else changes; an unknown id leaves the registry as it
      was; amounts within their widget bounds stay within them. */
  function FijarMonto(vs: seq<Cajero>, id: string, monto: int): (ws: seq<Cajero>)
    ensures |ws| == |vs|
    ensures PrimerIndice(vs, id).Some? ==> ws[PrimerIndice(vs, id).value].montoAbastecer == monto
    ensures forall k :: 0 <= k < |vs| ==> ws[k].(montoAbastecer := vs[k].montoAbastecer) == vs[k]
    ensures forall k :: 0 <= k < |vs| && ws[k] != vs[k] ==>
              vs[k].id == id && (forall j :: 0 <= j < k ==> vs[j].id != id) && ws[k].montoAbastecer == monto
    ensures (forall k :: 0 <= k < |vs| ==> vs[k].id != id) ==> ws == vs
    ensures (MontosValidos(vs) &&
             (PrimerIndice(vs, id).Some? ==> MontoEnRango(vs[PrimerIndice(vs, id).value], monto)))
            ==> MontosValidos(ws)
  {
    match PrimerIndice(vs, id)
    case None => vs
    case Some(k) => vs[k := vs[k].(montoAbastecer := monto)]
  }

  /** The filter pass and the override commute: neither the filters nor the
      recommendation read the amount, and the pass keeps every id. So the
      total shown after the rerun that follows an override is the total of
      the overridden registry once it has been through the pass. */
  lemma PasadaFijarMonto(vs: seq<Cajero>, f: Filtros, id: string, monto: int)
    ensures Pasada(FijarMonto(vs, id, monto), f) == FijarMonto(Pasada(vs, f), id, monto)
  {
    var ws := Pasada(vs, f);
    assert forall k :: 0 <= k < |vs| ==> ws[k].id == vs[k].id;
    PrimerIndicePorIds(vs, ws, id);
    match PrimerIndice(vs, id)
    case None =>
    case Some(k) =>
      ProcesarMonto(vs[k], f, monto);
      assert Pasada(FijarMonto(vs, id, monto), f) == ws[k := ws[k].(montoAbastecer := monto)];
  }

  /** The pass does to a record what it does whatever the record's amount. */
  lemma ProcesarMonto(c: Cajero, f: Filtros, monto: int)
    ensures Procesar(c.(montoAbastecer := monto), f) == Procesar(c, f).(montoAbastecer := monto)
  {
    var d := c.(montoAbastecer := monto);
    assert DiasDeEfectivo(d) == DiasDeEfectivo(c);
    assert Cumple(d, f) == Cumple(c, f) by {
      if f.periodo.Hasta? {
        assert SaldoPorDia(d, f.periodo.dia) == SaldoPorDia(c, f.periodo.dia);
      }
    }
  }

  /** PrimerIndice reads only the ids. */
  lemma PrimerIndicePorIds(vs: seq<Cajero>, ws: seq<Cajero>, id: string)
    requires |vs| == |ws|
    requires forall k :: 0 <= k < |vs| ==> ws[k].id == vs[k].id
    ensures PrimerIndice(ws, id) == PrimerIndice(vs, id)
  {
  }
}
