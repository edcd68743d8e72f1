/**
 * The sale workflow (ventas/application/services.py): reserve, pay, cancel and deliver a sale,
 * and recompute its totals. Each operation runs in one atomic block: when it raises, every
 * write it made is rolled back.
 */
module VentasServices {
  import opened Wrappers
  import opened Articulos
  import opened VentasDomain

  /** The ValidationErrors the services raise, the missing sale row, and totals the sale's columns refuse. */
  datatype VentaError =
    | VentaNoExiste
    | NoEsBorrador
    | VentaCancelada
    | VentaEntregada
    | MontoInvalido
    | SinArticulos
    | ArticuloNoDisponible(id: ArticuloId, estado: ArticuloEstado)
    | ArticuloVendido(id: ArticuloId)
    | ArticuloEnBaja(id: ArticuloId)
    | ArticuloNoReservado(id: ArticuloId, estado: ArticuloEstado)
    | ArticuloNoVendible(id: ArticuloId, estado: ArticuloEstado)
    | PagoInvalido
    | PagosInsuficientes
    | NoCancelable
    | NoEsPagada
    | TotalesFueraDeRango

  // ---------------------------------------------------------------------------
  // The per-unit guards
  // ---------------------------------------------------------------------------

  /** Which loop over the sale's units: the one in reservar_articulos, or the one in marcar_pagada. */
  datatype Guardia = ParaReservar | ParaPagar(exigirReservado: bool)

  /** The check one unit in state `e` must pass, and the error it raises otherwise. */
  function Revisar(g: Guardia, id: ArticuloId, e: ArticuloEstado): (r: Option<VentaError>)
    ensures g == ParaReservar ==> (r.None? <==> e == Disponible)
    ensures g == ParaPagar(true) ==> (r.None? <==> e == Reservado)
    ensures g == ParaPagar(false) ==> (r.None? <==> e == Reservado || e == Disponible)
    ensures g.ParaPagar? && e == Vendido ==> r == Some(ArticuloVendido(id))
    ensures g.ParaPagar? && e == Baja ==> r == Some(ArticuloEnBaja(id))
  {
    match g
    case ParaReservar =>
      if e != Disponible then Some(ArticuloNoDisponible(id, e)) else None
    case ParaPagar(exigir) =>
      if e == Vendido then Some(ArticuloVendido(id))
      else if e == Baja then Some(ArticuloEnBaja(id))
      else if exigir && e != Reservado then Some(ArticuloNoReservado(id, e))
      else if !exigir && e != Reservado && e != Disponible then Some(ArticuloNoVendible(id, e))
      else None
  }

  /**
   * The error the guard loop raises over units `ids`: that of the first unit that fails; ids
   * with no unit row are not returned by the query and so are not checked.
   */
  function PrimeraFalla(g: Guardia, arts: map<ArticuloId, ArticuloEstado>, ids: seq<ArticuloId>): (r: Option<VentaError>)
    ensures r.None? <==> forall a :: a in ids && a in arts ==> Revisar(g, a, arts[a]).None?
    ensures r.Some? ==> exists a :: a in ids && a in arts && r == Revisar(g, a, arts[a])
  {
    if ids == [] then None
    else if ids[0] in arts && Revisar(g, ids[0], arts[ids[0]]).Some? then Revisar(g, ids[0], arts[ids[0]])
    else
      var rest := PrimeraFalla(g, arts, ids[1..]);
      assert forall a :: a in ids ==> a == ids[0] || a in ids[1..];
      rest
  }

  /** The loop itself: walks the units in order and stops at the first one that fails its check. */
  method BuscarFalla(g: Guardia, arts: map<ArticuloId, ArticuloEstado>, ids: seq<ArticuloId>) returns (r: Option<VentaError>)
    ensures r == PrimeraFalla(g, arts, ids)
  {
    var i := 0;
    while i < |ids|
      invariant 0 <= i <= |ids|
      invariant PrimeraFalla(g, arts, ids) == PrimeraFalla(g, arts, ids[i..])
    {
      assert ids[i..][1..] == ids[i + 1..];
      if ids[i] in arts {
        var f := Revisar(g, ids[i], arts[ids[i]]);
        if f.Some? {
          return f;
        }
      }
      i := i + 1;
    }
    return None;
  }

  /** `filter(id__in=ids).update(estado=e)`: every existing unit in `ids` gets state `e`. */
  function ConEstado(arts: map<ArticuloId, ArticuloEstado>, ids: seq<ArticuloId>, e: ArticuloEstado): (r: map<ArticuloId, ArticuloEstado>)
    ensures r.Keys == arts.Keys
  {
    map a | a in arts :: if a in ids then e else arts[a]
  }

  /** `filter(id__in=ids, estado=RESERVADO).update(estado=DISPONIBLE)`: releases the reserved units among `ids`. */
  function Liberar(arts: map<ArticuloId, ArticuloEstado>, ids: seq<ArticuloId>): (r: map<ArticuloId, ArticuloEstado>)
    ensures r.Keys == arts.Keys
  {
    map a | a in arts :: if a in ids && arts[a] == Reservado then Disponible else arts[a]
  }

  // ---------------------------------------------------------------------------
  // The operations, as functions of the tables
  // ---------------------------------------------------------------------------

  /**
   * recalcular_totales: the sale's totals brought up to date; a missing sale raises, and so
   * does the write of totals that do not fit the sale's columns.
   */
  function RecalcularTotales(db: Db, v: VentaId): (r: Result<Db, VentaError>)
    ensures r.Err? <==> v !in db.ventas || !TotalesCaben(TotalesDe(LineasDe(db.detalles, v)))
    ensures v !in db.ventas ==> r == Err(VentaNoExiste)
    ensures v in db.ventas && !TotalesCaben(TotalesDe(LineasDe(db.detalles, v))) ==> r == Err(TotalesFueraDeRango)
    ensures r.Ok? ==> (TotalesAlDia(r.value, v) && r.value.detalles == db.detalles
      && r.value.articulos == db.articulos && r.value.pagos == db.pagos
      && r.value.ventas.Keys == db.ventas.Keys
      && r.value.ventas[v] == db.ventas[v].(totales := r.value.ventas[v].totales)
      && (forall w :: w in db.ventas && w != v ==> r.value.ventas[w] == db.ventas[w]))
  {
    if v !in db.ventas then Err(VentaNoExiste)
    else match Recalcular(db, v)
      case None => Err(TotalesFueraDeRango)
      case Some(db1) => Ok(db1)
  }

  /**
   * reservar_articulos: a BORRADOR sale with at least one line, all of whose units are
   * DISPONIBLE, has every one of those units set to RESERVADO; nothing else changes.
   */
  function Reservar(db: Db, v: VentaId): (r: Result<Db, VentaError>)
    ensures r.Ok? <==>
      (v in db.ventas && db.ventas[v].estado == Borrador && ArticulosDe(db.detalles, v) != []
       && forall a :: a in ArticulosDe(db.detalles, v) && a in db.articulos ==> db.articulos[a] == Disponible)
    ensures r.Ok? ==> r.value.ventas == db.ventas && r.value.detalles == db.detalles && r.value.pagos == db.pagos
    ensures r.Ok? ==> r.value.articulos.Keys == db.articulos.Keys
    ensures r.Ok? ==> forall a :: a in db.articulos ==>
      r.value.articulos[a] == (if a in ArticulosDe(db.detalles, v) then Reservado else db.articulos[a])
    ensures v in db.ventas && db.ventas[v].estado != Borrador ==> r == Err(NoEsBorrador)
  {
    if v !in db.ventas then Err(VentaNoExiste)
    else if db.ventas[v].estado != Borrador then Err(NoEsBorrador)
    else
      var ids := ArticulosDe(db.detalles, v);
      if ids == [] then Err(SinArticulos)
      else match PrimeraFalla(ParaReservar, db.articulos, ids)
        case Some(e) => Err(e)
        case None => Ok(db.(articulos := ConEstado(db.articulos, ids, Reservado)))
  }

  /** The payment marcar_pagada records. */
  function NuevoPago(v: VentaId, metodo: MetodoPago, monto: int, referencia: string): Pago {
    Pago(v, metodo, monto, referencia)
  }

  /** What the sale's row becomes when it is paid at `now`: PAGADA, with the first payment time kept. */
  function Pagar(venta: Venta, now: Instant): (r: Venta)
    ensures r.estado == Pagada && r.pagadaEn.Some? && r.totales == venta.totales && r.entregadaEn == venta.entregadaEn
    ensures venta.pagadaEn.Some? ==> r.pagadaEn == venta.pagadaEn
  {
    venta.(estado := Pagada, pagadaEn := if venta.pagadaEn.Some? then venta.pagadaEn else Some(now))
  }

  /**
   * marcar_pagada: refuses CANCELADA and ENTREGADA sales and a missing or negative amount;
   * recomputes the totals, which raises when they do not fit the sale's columns; refuses a sale with no lines or with a unit that fails the payment
   * guard; records the payment (which must fit its columns); and, when the payments now cover the
   * total, sets every unit of the sale to VENDIDO and the sale to PAGADA.
   */
  function MarcarPagada(db: Db, v: VentaId, metodo: MetodoPago, monto: Option<int>, referencia: string,
                        exigirReservado: bool, now: Instant): (r: Result<Db, VentaError>)
    ensures v !in db.ventas ==> r == Err(VentaNoExiste)
    ensures v in db.ventas && db.ventas[v].estado == Cancelada ==> r == Err(VentaCancelada)
    ensures v in db.ventas && db.ventas[v].estado == Entregada ==> r == Err(VentaEntregada)
    ensures (v in db.ventas && db.ventas[v].estado != Cancelada && db.ventas[v].estado != Entregada
             && (monto.None? || monto.value < 0)) ==> r == Err(MontoInvalido)
  {
    if v !in db.ventas then Err(VentaNoExiste)
    else if db.ventas[v].estado == Cancelada then Err(VentaCancelada)
    else if db.ventas[v].estado == Entregada then Err(VentaEntregada)
    else if monto.None? || monto.value < 0 then Err(MontoInvalido)
    else match Recalcular(db, v)
      case None => Err(TotalesFueraDeRango)
      case Some(db1) => Cobrar(db1, v, metodo, monto.value, referencia, exigirReservado, now)
  }

  /** marcar_pagada once the sale has passed the state and amount checks and its totals are up to date. */
  function Cobrar(db1: Db, v: VentaId, metodo: MetodoPago, monto: int, referencia: string,
                  exigirReservado: bool, now: Instant): (r: Result<Db, VentaError>)
    requires v in db1.ventas
  {
    var ids := ArticulosDe(db1.detalles, v);
    if ids == [] then Err(SinArticulos)
    else match PrimeraFalla(ParaPagar(exigirReservado), db1.articulos, ids)
      case Some(e) => Err(e)
      case None =>
        var pago := NuevoPago(v, metodo, monto, referencia);
        if !PagoValido(pago) then Err(PagoInvalido)
        else
          var pagos := db1.pagos + [pago];
          assert pagos[..|pagos| - 1] == db1.pagos;
          if Pagado(pagos, v) < db1.ventas[v].totales.total then Err(PagosInsuficientes)
          else Ok(db1.(articulos := ConEstado(db1.articulos, ids, Vendido), pagos := pagos,
                       ventas := db1.ventas[v := Pagar(db1.ventas[v], now)]))
  }

  /**
   * marcar_pagada succeeds exactly when the sale is neither CANCELADA nor ENTREGADA, the amount
   * is present and non-negative, the recomputed totals fit their columns, the sale has lines, every unit passes the payment guard, the
   * payment fits its columns, and the payments so far plus this one cover the recomputed total.
   */
  lemma MarcarPagadaExito(db: Db, v: VentaId, metodo: MetodoPago, monto: Option<int>, referencia: string,
                          exigirReservado: bool, now: Instant)
    ensures MarcarPagada(db, v, metodo, monto, referencia, exigirReservado, now).Ok? <==>
      (v in db.ventas && db.ventas[v].estado != Cancelada && db.ventas[v].estado != Entregada
       && monto.Some? && monto.value >= 0 && TotalesCaben(TotalesDe(LineasDe(db.detalles, v)))
       && ArticulosDe(db.detalles, v) != []
       && PrimeraFalla(ParaPagar(exigirReservado), db.articulos, ArticulosDe(db.detalles, v)).None?
       && PagoValido(NuevoPago(v, metodo, monto.value, referencia))
       && Pagado(db.pagos, v) + monto.value >= TotalesDe(LineasDe(db.detalles, v)).total)
  {
    if v in db.ventas && db.ventas[v].estado != Cancelada && db.ventas[v].estado != Entregada
       && monto.Some? && monto.value >= 0 && TotalesCaben(TotalesDe(LineasDe(db.detalles, v))) {
      var db1 := Recalcular(db, v).value;
      var pagos := db1.pagos + [NuevoPago(v, metodo, monto.value, referencia)];
      assert pagos[..|pagos| - 1] == db.pagos;
      assert Pagado(pagos, v) == Pagado(db.pagos, v) + monto.value;
    }
  }

  /**
   * A successful marcar_pagada: the sale is PAGADA with up-to-date totals, its first payment time
   * kept or set to now, and its delivery time unchanged; the one new payment is appended and the
   * payments cover the total; every unit of the sale is VENDIDO; no other unit or sale changes.
   */
  lemma MarcarPagadaEfectos(db: Db, v: VentaId, metodo: MetodoPago, monto: Option<int>, referencia: string,
                            exigirReservado: bool, now: Instant)
    requires MarcarPagada(db, v, metodo, monto, referencia, exigirReservado, now).Ok?
    ensures var r := MarcarPagada(db, v, metodo, monto, referencia, exigirReservado, now).value;
      v in db.ventas && monto.Some?
      && TotalesAlDia(r, v)
      && r.ventas[v] == db.ventas[v].(estado := Pagada, totales := TotalesDe(LineasDe(db.detalles, v)),
                                      pagadaEn := if db.ventas[v].pagadaEn.Some? then db.ventas[v].pagadaEn else Some(now))
      && r.detalles == db.detalles
      && r.pagos == db.pagos + [NuevoPago(v, metodo, monto.value, referencia)]
      && Pagado(r.pagos, v) >= r.ventas[v].totales.total
      && r.articulos.Keys == db.articulos.Keys && r.ventas.Keys == db.ventas.Keys
      && (forall w :: w in db.ventas && w != v ==> r.ventas[w] == db.ventas[w])
      && (forall a :: a in db.articulos ==>
            r.articulos[a] == (if a in ArticulosDe(db.detalles, v) then Vendido else db.articulos[a]))
  {
    var db1 := Recalcular(db, v).value;
    assert ArticulosDe(db1.detalles, v) == ArticulosDe(db.detalles, v);
  }

  /** Past the amount check, marcar_pagada never raises the amount error. */
  lemma CobrarNoEsMonto(db1: Db, v: VentaId, metodo: MetodoPago, monto: int, referencia: string,
                        exigirReservado: bool, now: Instant)
    requires v in db1.ventas
    ensures Cobrar(db1, v, metodo, monto, referencia, exigirReservado, now) != Err(MontoInvalido)
  {
    var ids := ArticulosDe(db1.detalles, v);
    if ids != [] {
      var f := PrimeraFalla(ParaPagar(exigirReservado), db1.articulos, ids);
      if f.Some? {
        var a :| a in ids && a in db1.articulos && f == Revisar(ParaPagar(exigirReservado), a, db1.articulos[a]);
      }
    }
  }

  /**
   * cancelar_venta: a CANCELADA sale is returned as it is; PAGADA and ENTREGADA sales are
   * refused; otherwise the RESERVADO units of its lines go back to DISPONIBLE (others keep their
   * state) and the sale becomes CANCELADA.
   */
  function Cancelar(db: Db, v: VentaId): (r: Result<Db, VentaError>)
    ensures r.Ok? <==> v in db.ventas && db.ventas[v].estado != Pagada && db.ventas[v].estado != Entregada
    ensures v in db.ventas && (db.ventas[v].estado == Pagada || db.ventas[v].estado == Entregada) ==> r == Err(NoCancelable)
    ensures v in db.ventas && db.ventas[v].estado == Cancelada ==> r == Ok(db)
    ensures r.Ok? ==> (r.value.ventas.Keys == db.ventas.Keys && r.value.ventas[v] == db.ventas[v].(estado := Cancelada)
      && (forall w :: w in db.ventas && w != v ==> r.value.ventas[w] == db.ventas[w])
      && r.value.detalles == db.detalles && r.value.pagos == db.pagos)
    ensures r.Ok? ==> (r.value.articulos.Keys == db.articulos.Keys
      && (forall a :: a in db.articulos ==>
            r.value.articulos[a] ==
              (if a in ArticulosDe(db.detalles, v) && db.articulos[a] == Reservado && db.ventas[v].estado != Cancelada
               then Disponible else db.articulos[a])))
  {
    if v !in db.ventas then Err(VentaNoExiste)
    else
      var venta := db.ventas[v];
      if venta.estado == Cancelada then Ok(db)
      else if venta.estado == Pagada || venta.estado == Entregada then Err(NoCancelable)
      else
        var ids := ArticulosDe(db.detalles, v);
        var ventas := db.ventas[v := venta.(estado := Cancelada)];
        if ids == [] then Ok(db.(ventas := ventas))
        else Ok(db.(articulos := Liberar(db.articulos, ids), ventas := ventas))
  }

  /** marcar_entregada: only a PAGADA sale is delivered; the first delivery time is kept. */
  function MarcarEntregada(db: Db, v: VentaId, now: Instant): (r: Result<Db, VentaError>)
    ensures r.Ok? <==> v in db.ventas && db.ventas[v].estado == Pagada
    ensures v in db.ventas && db.ventas[v].estado != Pagada ==> r == Err(NoEsPagada)
    ensures r.Ok? ==> (r.value.articulos == db.articulos && r.value.detalles == db.detalles && r.value.pagos == db.pagos
      && r.value.ventas.Keys == db.ventas.Keys
      && (forall w :: w in db.ventas && w != v ==> r.value.ventas[w] == db.ventas[w])
      && r.value.ventas[v].estado == Entregada && r.value.ventas[v].entregadaEn.Some?
      && r.value.ventas[v].pagadaEn == db.ventas[v].pagadaEn && r.value.ventas[v].totales == db.ventas[v].totales
      && (db.ventas[v].entregadaEn.Some? ==> r.value.ventas[v].entregadaEn == db.ventas[v].entregadaEn))
  {
    if v !in db.ventas then Err(VentaNoExiste)
    else
      var venta := db.ventas[v];
      if venta.estado != Pagada then Err(NoEsPagada)
      else
        var entregada := if venta.entregadaEn.Some? then venta.entregadaEn else Some(now);
        Ok(db.(ventas := db.ventas[v := venta.(estado := Entregada, entregadaEn := entregada)]))
  }

  // ---------------------------------------------------------------------------
  // Properties of the workflow
  // ---------------------------------------------------------------------------

  /** Reserving a sale's units and then cancelling the sale puts every unit back in the state it had. */
  lemma ReservarCancelarRestaura(db: Db, v: VentaId)
    requires Reservar(db, v).Ok?
    ensures Cancelar(Reservar(db, v).value, v).Ok?
    ensures Cancelar(Reservar(db, v).value, v).value.articulos == db.articulos
    ensures Cancelar(Reservar(db, v).value, v).value.ventas[v].estado == Cancelada
  {
    var db1 := Reservar(db, v).value;
    var db2 := Cancelar(db1, v).value;
    var ids := ArticulosDe(db.detalles, v);
    assert db1.ventas[v].estado == Borrador;
    forall a | a in db.articulos
      ensures db2.articulos[a] == db.articulos[a]
    {
      if a in ids {
        assert db1.articulos[a] == Reservado;
      }
    }
  }

  /** Cancelling is idempotent: cancelling a cancelled sale changes nothing and does not raise. */
  lemma CancelarIdempotente(db: Db, v: VentaId)
    requires Cancelar(db, v).Ok?
    ensures Cancelar(Cancelar(db, v).value, v) == Cancelar(db, v)
  {
  }

  /** The guard loop reports the first unit when that one fails. */
  lemma PrimeraFallaCabeza(g: Guardia, arts: map<ArticuloId, ArticuloEstado>, ids: seq<ArticuloId>)
    requires ids != [] && ids[0] in arts && Revisar(g, ids[0], arts[ids[0]]).Some?
    ensures PrimeraFalla(g, arts, ids) == Revisar(g, ids[0], arts[ids[0]])
  {
  }

  /**
   * When a unit of a payable sale fails the payment guard, marcar_pagada raises that unit's
   * error, unless the recomputation before the guard has already raised.
   */
  lemma PagarFallaEnUnidad(db: Db, v: VentaId, metodo: MetodoPago, monto: int, referencia: string, exigir: bool, now: Instant)
    requires v in db.ventas && db.ventas[v].estado != Cancelada && db.ventas[v].estado != Entregada && monto >= 0
    requires PrimeraFalla(ParaPagar(exigir), db.articulos, ArticulosDe(db.detalles, v)).Some?
    ensures MarcarPagada(db, v, metodo, Some(monto), referencia, exigir, now)
      == if TotalesCaben(TotalesDe(LineasDe(db.detalles, v))) then
           Err(PrimeraFalla(ParaPagar(exigir), db.articulos, ArticulosDe(db.detalles, v)).value)
         else Err(TotalesFueraDeRango)
  {
    if TotalesCaben(TotalesDe(LineasDe(db.detalles, v))) {
      var db1 := Recalcular(db, v).value;
      assert db1.detalles == db.detalles && db1.articulos == db.articulos;
    }
  }

  /** Once a sale whose units are all on record is paid, paying it again raises "already VENDIDO" for its first unit. */
  lemma SegundoPagoFalla(db: Db, v: VentaId, metodo: MetodoPago, monto: int, referencia: string, exigir: bool, now: Instant,
                         metodo2: MetodoPago, monto2: int, referencia2: string, exigir2: bool, now2: Instant)
    requires WellFormed(db)
    requires MarcarPagada(db, v, metodo, Some(monto), referencia, exigir, now).Ok?
    requires monto2 >= 0
    ensures MarcarPagada(MarcarPagada(db, v, metodo, Some(monto), referencia, exigir, now).value,
                         v, metodo2, Some(monto2), referencia2, exigir2, now2)
      == Err(ArticuloVendido(ArticulosDe(db.detalles, v)[0]))
  {
    var db1 := MarcarPagada(db, v, metodo, Some(monto), referencia, exigir, now).value;
    var ids := ArticulosDe(db.detalles, v);
    var a := ids[0];
    MarcarPagadaEfectos(db, v, metodo, Some(monto), referencia, exigir, now);
    MarcarPagadaExito(db, v, metodo, Some(monto), referencia, exigir, now);
    ArticulosDeMembers(db.detalles, v, a);
    assert a in db.articulos;
    assert db1.articulos[a] == Vendido;
    assert ArticulosDe(db1.detalles, v) == ids;
    PrimeraFallaCabeza(ParaPagar(exigir2), db1.articulos, ids);
    PagarFallaEnUnidad(db1, v, metodo2, monto2, referencia2, exigir2, now2);
  }

  /** A payment that leaves the total uncovered raises, whatever else holds. */
  lemma PagoInsuficiente(db: Db, v: VentaId, metodo: MetodoPago, monto: int, referencia: string, exigir: bool, now: Instant)
    requires v in db.ventas && Pagado(db.pagos, v) + monto < TotalesDe(LineasDe(db.detalles, v)).total
    ensures MarcarPagada(db, v, metodo, Some(monto), referencia, exigir, now).Err?
  {
    MarcarPagadaExito(db, v, metodo, Some(monto), referencia, exigir, now);
  }

  /** Every operation keeps the tables' integrity: foreign keys hold and no unit is on two lines. */
  lemma OperacionesPreservanIntegridad(db: Db, v: VentaId, metodo: MetodoPago, monto: Option<int>, referencia: string,
                                       exigir: bool, now: Instant)
    requires WellFormed(db)
    ensures RecalcularTotales(db, v).Ok? ==> WellFormed(RecalcularTotales(db, v).value)
    ensures Reservar(db, v).Ok? ==> WellFormed(Reservar(db, v).value)
    ensures MarcarPagada(db, v, metodo, monto, referencia, exigir, now).Ok? ==>
      WellFormed(MarcarPagada(db, v, metodo, monto, referencia, exigir, now).value)
    ensures Cancelar(db, v).Ok? ==> WellFormed(Cancelar(db, v).value)
    ensures MarcarEntregada(db, v, now).Ok? ==> WellFormed(MarcarEntregada(db, v, now).value)
  {
    var r := MarcarPagada(db, v, metodo, monto, referencia, exigir, now);
    if r.Ok? {
      MarcarPagadaEfectos(db, v, metodo, monto, referencia, exigir, now);
      var p := NuevoPago(v, metodo, monto.value, referencia);
      assert forall q :: q in r.value.pagos ==> q in db.pagos || q == p;
    }
  }

  // ---------------------------------------------------------------------------
  // The operations on the tables in place
  // ---------------------------------------------------------------------------

  /** The method did what the function says: on Ok the new tables, on Err the error and no change. */
  ghost predicate Conforme(spec: Result<Db, VentaError>, antes: Db, despues: Db, error: Option<VentaError>) {
    match spec
    case Ok(d) => error.None? && despues == d
    case Err(e) => error == Some(e) && despues == antes
  }

  /** recalcular_totales, in place. */
  method RecalcularTotalesVenta(db: Tienda, v: VentaId) returns (error: Option<VentaError>)
    requires db.Valid()
    modifies db
    ensures db.Valid()
    ensures Conforme(RecalcularTotales(old(db.State()), v), old(db.State()), db.State(), error)
  {
    if v !in db.ventas {
      return Some(VentaNoExiste);
    }
    var desborde := db.RecalcularTotalesPorId(v);
    if desborde {
      return Some(TotalesFueraDeRango);
    }
    return None;
  }

  /** reservar_articulos, in place. */
  method ReservarArticulos(db: Tienda, v: VentaId) returns (error: Option<VentaError>)
    requires db.Valid()
    modifies db
    ensures db.Valid()
    ensures Conforme(Reservar(old(db.State()), v), old(db.State()), db.State(), error)
  {
    if v !in db.ventas {
      return Some(VentaNoExiste);
    }
    if db.ventas[v].estado != Borrador {
      return Some(NoEsBorrador);
    }
    var ids := ArticulosDe(db.detalles, v);
    if ids == [] {
      return Some(SinArticulos);
    }
    error := BuscarFalla(ParaReservar, db.articulos, ids);
    if error.Some? {
      return;
    }
    db.articulos := ConEstado(db.articulos, ids, Reservado);
  }

  /** marcar_pagada, in place; a raise after the first write rolls the tables back. */
  method MarcarPagadaVenta(db: Tienda, v: VentaId, metodo: MetodoPago, monto: Option<int>, referencia: string,
                           exigirReservado: bool, now: Instant) returns (error: Option<VentaError>)
    requires db.Valid()
    modifies db
    ensures db.Valid()
    ensures Conforme(MarcarPagada(old(db.State()), v, metodo, monto, referencia, exigirReservado, now),
                     old(db.State()), db.State(), error)
  {
    if v !in db.ventas {
      return Some(VentaNoExiste);
    }
    if db.ventas[v].estado == Cancelada {
      return Some(VentaCancelada);
    }
    if db.ventas[v].estado == Entregada {
      return Some(VentaEntregada);
    }
    if monto.None? || monto.value < 0 {
      return Some(MontoInvalido);
    }
    var inicio := db.State();
    assert inicio == old(db.State());
    var desborde := db.RecalcularTotalesPorId(v);
    if desborde {
      return Some(TotalesFueraDeRango);
    }
    error := CobrarVenta(db, v, metodo, monto.value, referencia, exigirReservado, now);
    if error.Some? {
      db.Restaurar(inicio);
    } else {
      OperacionesPreservanIntegridad(inicio, v, metodo, monto, referencia, exigirReservado, now);
    }
  }

  /** The part of marcar_pagada after the totals are recomputed; the payment it inserts is removed again when the total is not covered. */
  method CobrarVenta(db: Tienda, v: VentaId, metodo: MetodoPago, monto: int, referencia: string,
                     exigirReservado: bool, now: Instant) returns (error: Option<VentaError>)
    requires v in db.ventas
    modifies db
    ensures Conforme(Cobrar(old(db.State()), v, metodo, monto, referencia, exigirReservado, now),
                     old(db.State()), db.State(), error)
  {
    var ids := ArticulosDe(db.detalles, v);
    if ids == [] {
      return Some(SinArticulos);
    }
    error := BuscarFalla(ParaPagar(exigirReservado), db.articulos, ids);
    if error.Some? {
      return;
    }
    var pago := NuevoPago(v, metodo, monto, referencia);
    if !PagoValido(pago) {
      return Some(PagoInvalido);
    }
    var antes := db.pagos;
    db.pagos := db.pagos + [pago];
    var pagado := Pagado(db.pagos, v);
    if pagado < db.ventas[v].totales.total {
      db.pagos := antes;
      return Some(PagosInsuficientes);
    }
    db.articulos := ConEstado(db.articulos, ids, Vendido);
    db.ventas := db.ventas[v := Pagar(db.ventas[v], now)];
  }

  /** cancelar_venta, in place. */
  method CancelarVenta(db: Tienda, v: VentaId) returns (error: Option<VentaError>)
    requires db.Valid()
    modifies db
    ensures db.Valid()
    ensures Conforme(Cancelar(old(db.State()), v), old(db.State()), db.State(), error)
  {
    if v !in db.ventas {
      return Some(VentaNoExiste);
    }
    var venta := db.ventas[v];
    if venta.estado == Cancelada {
      return None;
    }
    if venta.estado == Pagada || venta.estado == Entregada {
      return Some(NoCancelable);
    }
    var ids := ArticulosDe(db.detalles, v);
    if ids != [] {
      db.articulos := Liberar(db.articulos, ids);
    }
    db.ventas := db.ventas[v := venta.(estado := Cancelada)];
    return None;
  }

  /** marcar_entregada, in place. */
  method MarcarEntregadaVenta(db: Tienda, v: VentaId, now: Instant) returns (error: Option<VentaError>)
    requires db.Valid()
    modifies db
    ensures db.Valid()
    ensures Conforme(MarcarEntregada(old(db.State()), v, now), old(db.State()), db.State(), error)
  {
    if v !in db.ventas {
      return Some(VentaNoExiste);
    }
    var venta := db.ventas[v];
    if venta.estado != Pagada {
      return Some(NoEsPagada);
    }
    var entregada := if venta.entregadaEn.Some? then venta.entregadaEn else Some(now);
    db.ventas := db.ventas[v := venta.(estado := Entregada, entregadaEn := entregada)];
    return None;
  }
}
