/** The six terminals the session starts with, and what the engine makes of them. */
module Semilla {
  import opened Modelo
  import opened Pronostico
  import opened Flota

  function Atm(id: string, codigo: string, nombre: string, ubicacion: string, tipo: Tipo,
               saldo: int, capacidad: int, pronostico: int, consumo: int,
               denominaciones: map<string, int>, ultimo: string, estado: Estado): Cajero
  {
    Cajero(id, codigo, nombre, ubicacion, tipo, saldo, capacidad, pronostico, consumo,
           denominaciones, ultimo, estado, 0, None)
  }

  /** DATOS_CAJEROS: six terminals with distinct ids, no amount entered and
      no recommendation merged yet. */
  function DatosCajeros(): (vs: seq<Cajero>)
    ensures |vs| == 6
    ensures forall i, j :: 0 <= i < j < |vs| ==> vs[i].id != vs[j].id
    ensures forall k :: 0 <= k < |vs| ==> vs[k].montoAbastecer == 0 && vs[k].recomendacion.None?
    ensures MontosValidos(vs)
  {
    [ Atm("ATM-001", "AG-001", "Agencia Centro Lima", "Sucursal Centro", Reciclador,
          45000, 100000, 38000, 42000,
          map["200" := 50, "100" := 100, "50" := 150, "20" := 200], "2025-11-28", Operativo),
      Atm("ATM-002", "AG-002", "Agencia Miraflores", "Mall Plaza", Retiro,
          15000, 80000, 52000, 48000,
          map["200" := 20, "100" := 30, "50" := 80, "20" := 150], "2025-11-25", Alerta),
      Atm("ATM-003", "AG-001", "Agencia Centro Lima", "Aeropuerto", Reciclador,
          72000, 150000, 65000, 60000,
          map["200" := 120, "100" := 180, "50" := 200, "20" := 250], "2025-12-01", Operativo),
      Atm("ATM-004", "AG-003", "Agencia San Isidro", "Universidad", Retiro,
          8000, 60000, 35000, 32000,
          map["200" := 10, "100" := 20, "50" := 40, "20" := 100], "2025-11-22", Critico),
      Atm("ATM-005", "AG-002", "Agencia Miraflores", "Centro Comercial", Reciclador,
          12000, 90000, 45000, 43000,
          map["200" := 15, "100" := 25, "50" := 60, "20" := 120], "2025-11-24", Critico),
      Atm("ATM-006", "AG-003", "Agencia San Isidro", "Torre Empresarial", Retiro,
          28000, 70000, 30000, 28000,
          map["200" := 40, "100" := 60, "50" := 80, "20" := 100], "2025-11-29", Alerta) ]
  }

  /** ATM-004: 1.75 days of cash, Media / alerta, replenishment needed, 52000 suggested. */
  lemma Atm004Recomendacion()
    ensures Recomendar(DatosCajeros()[3]) == Recomendacion(true, Finito(1.75), 52000, Media, Alerta)
  {
    var c := DatosCajeros()[3];
    assert DiasDeEfectivo(c).valor * 32000.0 == 7.0 * 8000.0;
  }

  /** ATM-001: 7.5 days of cash, Baja / operativo; its balance is above the
      forecast, so nothing is needed and nothing suggested. */
  lemma Atm001Recomendacion()
    ensures Recomendar(DatosCajeros()[0]) == Recomendacion(false, Finito(7.5), 0, Baja, Operativo)
  {
    var c := DatosCajeros()[0];
    assert DiasDeEfectivo(c).valor * 42000.0 == 7.0 * 45000.0;
  }

  /** The suggested amount is not clamped: a balance above capacity (61000 in a
      60000 terminal) with a forecast above it still needs replenishment and
      yields a negative suggestion. */
  lemma MontoSugeridoSinTope()
    ensures var c := DatosCajeros()[3].(saldoActual := 61000, pronostico7dias := 70000);
      Recomendar(c).necesita && Recomendar(c).montoSugerido == -1000
  {
  }

  /** The first render labels the 'critico' button with 2, counted on the
      stored statuses of ATM-004 and ATM-005 before that render's pass; a
      'critico' filter on those values would show exactly those two and
      reclassify both as alerta (1.75 and about 1.95 days). But the session
      starts with every filter at 'todos', so that first pass refreshes every
      record, and no seed terminal has less than one day of cash: from then on
      the button counts 0 and pressing it shows no card. */
  lemma PrimeraVistaCritico()
    ensures ContarFiltrados(DatosCajeros(), TodasAgencias, Critico) == 2
    ensures Pasan(DatosCajeros(), Filtros(TodasAgencias, SoloEstado(Critico), TodosPeriodos)) == [3, 4]
    ensures Pasada(DatosCajeros(), Filtros(TodasAgencias, SoloEstado(Critico), TodosPeriodos))[3].estado == Alerta
    ensures Pasada(DatosCajeros(), Filtros(TodasAgencias, SoloEstado(Critico), TodosPeriodos))[4].estado == Alerta
    ensures var ws := Pasada(DatosCajeros(), Filtros(TodasAgencias, TodosEstados, TodosPeriodos));
      && ContarFiltrados(ws, TodasAgencias, Critico) == 0
      && Pasan(ws, Filtros(TodasAgencias, SoloEstado(Critico), TodosPeriodos)) == []
  {
    CriticosAlInicio();
    SinCriticosTrasPasada();
  }

  /** On the stored statuses of the seed, ATM-004 and ATM-005 are the critico records. */
  lemma CriticosAlInicio()
    ensures ContarFiltrados(DatosCajeros(), TodasAgencias, Critico) == 2
    ensures Pasan(DatosCajeros(), Filtros(TodasAgencias, SoloEstado(Critico), TodosPeriodos)) == [3, 4]
    ensures Pasada(DatosCajeros(), Filtros(TodasAgencias, SoloEstado(Critico), TodosPeriodos))[3].estado == Alerta
    ensures Pasada(DatosCajeros(), Filtros(TodasAgencias, SoloEstado(Critico), TodosPeriodos))[4].estado == Alerta
  {
    var vs := DatosCajeros();
    var f := Filtros(TodasAgencias, SoloEstado(Critico), TodosPeriodos);
    assert forall k :: 0 <= k < |vs| ==> (Cumple(vs[k], f) <==> k == 3 || k == 4);
    PasanUnico(vs, f, [3, 4]);
    ContarEsTamanoDelFiltro(vs, TodasAgencias, Critico);
  }

  /** After the first 'todos' pass no seed record is critico. */
  lemma SinCriticosTrasPasada()
    ensures var ws := Pasada(DatosCajeros(), Filtros(TodasAgencias, TodosEstados, TodosPeriodos));
      && ContarFiltrados(ws, TodasAgencias, Critico) == 0
      && Pasan(ws, Filtros(TodasAgencias, SoloEstado(Critico), TodosPeriodos)) == []
  {
    var vs := DatosCajeros();
    var ws := Pasada(vs, Filtros(TodasAgencias, TodosEstados, TodosPeriodos));
    PasadaTodos();
    assert forall k :: 0 <= k < 6 ==> 7 * vs[k].saldoActual >= vs[k].consumoReal;
    assert forall k :: 0 <= k < |ws| ==> ws[k].estado != Critico;
    ContarEsTamanoDelFiltro(ws, TodasAgencias, Critico);
  }

  /** The 'T-2' view keeps the terminals with more than two days of cash:
      ATM-001, ATM-002, ATM-003 and ATM-006. */
  lemma VistaT2()
    ensures Pasan(DatosCajeros(), Filtros(TodasAgencias, TodosEstados, Hasta(2))) == [0, 1, 2, 5]
  {
    var vs := DatosCajeros();
    var f := Filtros(TodasAgencias, TodosEstados, Hasta(2));
    forall k | 0 <= k < |vs|
      ensures Cumple(vs[k], f) <==> k == 0 || k == 1 || k == 2 || k == 5
    {
      TieneEfectivo(vs[k], 2);
      DiasMenorQue(vs[k], 2);
    }
    PasanUnico(vs, f, [0, 1, 2, 5]);
  }

  /** The session starts with nothing to reload. */
  lemma TotalInicial()
    ensures TotalAbastecer(DatosCajeros()) == 0
  {
    SinPendientesTotalCero(DatosCajeros());
  }

  /** ATM-006: exactly 7 days of cash, so Baja / operativo, but its balance is
      below the 7-day forecast, so it still needs replenishment (42000). */
  lemma Atm006Recomendacion()
    ensures Recomendar(DatosCajeros()[5]) == Recomendacion(true, Finito(7.0), 42000, Baja, Operativo)
  {
    var c := DatosCajeros()[5];
    assert DiasDeEfectivo(c).valor * 28000.0 == 7.0 * 28000.0;
  }

  /** The 'todos' pass refreshes every seed record. */
  lemma PasadaTodos()
    ensures var ws := Pasada(DatosCajeros(), Filtros(TodasAgencias, TodosEstados, TodosPeriodos));
      |ws| == 6 && forall k :: 0 <= k < 6 ==> ws[k] == Refrescar(DatosCajeros()[k])
  {
  }

  /** The two overrides on any six-record registry with distinct ids, no
      amount entered yet, ATM-004 in alerta at position 3 and ATM-006
      operativo at position 5. */
  lemma OverridesSobre(ws: seq<Cajero>)
    requires |ws| == 6
    requires forall i, j :: 0 <= i < j < |ws| ==> ws[i].id != ws[j].id
    requires ws[3].id == "ATM-004" && ws[5].id == "ATM-006"
    requires forall k :: 0 <= k < 6 ==> ws[k].montoAbastecer == 0
    requires ws[3].estado == Alerta && ws[5].estado == Operativo
    ensures TotalAbastecer(FijarMonto(ws, "ATM-004", 20000)) == 20000
    ensures TotalAbastecer(FijarMonto(FijarMonto(ws, "ATM-004", 20000), "ATM-006", 5000)) == 20000
  {
    SinPendientesTotalCero(ws);
    TotalTrasFijar(ws, 3, "ATM-004", 20000);
    var ws2 := ws[3 := ws[3].(montoAbastecer := 20000)];
    assert forall j :: 0 <= j < 5 ==> ws2[j].id != ws[5].id;
    OverrideOperativo(ws2, 5, "ATM-006", 5000);
  }

  /** An override of an operativo record leaves the total unchanged. */
  lemma OverrideOperativo(ws: seq<Cajero>, i: nat, id: string, monto: int)
    requires i < |ws| && ws[i].id == id && ws[i].estado == Operativo
    requires forall j :: 0 <= j < i ==> ws[j].id != id
    ensures TotalAbastecer(FijarMonto(ws, id, monto)) == TotalAbastecer(ws)
  {
    TotalTrasFijar(ws, i, id, monto);
    assert !PorAbastecer(ws[i]) && !PorAbastecer(ws[i].(montoAbastecer := monto));
  }

  /** One override at the record first found at position i changes the total
      by that record's contribution only. */
  lemma TotalTrasFijar(ws: seq<Cajero>, i: nat, id: string, monto: int)
    requires i < |ws| && ws[i].id == id
    requires forall j :: 0 <= j < i ==> ws[j].id != id
    ensures FijarMonto(ws, id, monto) == ws[i := ws[i].(montoAbastecer := monto)]
    ensures TotalAbastecer(FijarMonto(ws, id, monto))
            == TotalAbastecer(ws) - Aporte(ws[i]) + Aporte(ws[i].(montoAbastecer := monto))
  {
    FijarEn(ws, i, id, monto);
    TotalTrasCambio(ws, i, ws[i].(montoAbastecer := monto));
  }

  /** An override whose id is first found at position i sets the amount there. */
  lemma FijarEn(ws: seq<Cajero>, i: nat, id: string, monto: int)
    requires i < |ws| && ws[i].id == id
    requires forall j :: 0 <= j < i ==> ws[j].id != id
    ensures FijarMonto(ws, id, monto) == ws[i := ws[i].(montoAbastecer := monto)]
  {
    assert PrimerIndice(ws, id) == Some(i);
  }

  /** After the first 'todos' pass, ATM-004 (alerta, 1.75 days) and ATM-006
      (7 days, operativo but below its forecast) both need replenishment, so
      both cards offer the amount input. Entering 20000 for ATM-004 makes the
      reload total 20000; entering 5000 for ATM-006 afterwards leaves it at
      20000, because an operativo record is not listed for reload. Each
      override triggers a rerun whose pass comes before the total is computed;
      that pass changes nothing here, so the totals shown are the same. */
  lemma TotalTrasOverrides()
    ensures var ws := Pasada(DatosCajeros(), Filtros(TodasAgencias, TodosEstados, TodosPeriodos));
      && Recomendar(DatosCajeros()[3]).necesita && ws[3].estado == Alerta
      && Recomendar(DatosCajeros()[5]).necesita && ws[5].estado == Operativo
      && TotalAbastecer(FijarMonto(ws, "ATM-004", 20000)) == 20000
      && TotalAbastecer(FijarMonto(FijarMonto(ws, "ATM-004", 20000), "ATM-006", 5000)) == 20000
    ensures var f := Filtros(TodasAgencias, TodosEstados, TodosPeriodos);
      var ws := Pasada(DatosCajeros(), f);
      && TotalAbastecer(Pasada(FijarMonto(ws, "ATM-004", 20000), f)) == 20000
      && TotalAbastecer(Pasada(FijarMonto(FijarMonto(ws, "ATM-004", 20000), "ATM-006", 5000), f)) == 20000
  {
    var vs := DatosCajeros();
    var f := Filtros(TodasAgencias, TodosEstados, TodosPeriodos);
    var ws := Pasada(vs, f);
    PasadaTodos();
    Atm004Recomendacion();
    Atm006Recomendacion();
    OverridesSobre(ws);
    var ws1 := FijarMonto(ws, "ATM-004", 20000);
    PasadaIdempotente(vs, f);
    PasadaFijarMonto(ws, f, "ATM-004", 20000);
    PasadaFijarMonto(ws1, f, "ATM-006", 5000);
  }
}
