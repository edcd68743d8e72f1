/**
 * The sale aggregate (ventas/domain/models.py): sales, their lines and payments, the totals
 * calculator, the validators, and the tables they live in.
 */
module VentasDomain {
  import opened Wrappers
  import opened Decimals
  import opened Articulos

  type VentaId = int

  /** A timestamp (`timezone.now()`), supplied by the caller. */
  type Instant = int

  datatype VentaEstado = Borrador | Pagada | Entregada | Cancelada

  datatype MetodoPago = Efectivo | Transferencia | Tarjeta

  /** The four money fields of a sale, in cents. */
  datatype Totales = Totales(subtotal: int, descuento: int, impuestos: int, total: int)

  const CeroTotales: Totales := Totales(0, 0, 0, 0)

  /** A sale row; folio, customer, seller and creation time play no part in the rules. */
  datatype Venta = Venta(estado: VentaEstado, totales: Totales, pagadaEn: Option<Instant>, entregadaEn: Option<Instant>)

  /** A sale line: one unit, with the price and discount fixed when it was added. */
  datatype Detalle = Detalle(venta: VentaId, articulo: ArticuloId, precio: int, descuento: int)

  /** A payment; payments are only ever appended. */
  datatype Pago = Pago(venta: VentaId, metodo: MetodoPago, monto: int, referencia: string)

  /** The tables: unit states, sales, lines in id order, payments in creation order. */
  datatype Db = Db(
    articulos: map<ArticuloId, ArticuloEstado>,
    ventas: map<VentaId, Venta>,
    detalles: seq<Detalle>,
    pagos: seq<Pago>)

  /**
   * The database's own guarantees: every line and payment points at an existing sale, every
   * line at an existing unit, and no unit is on two lines (`articulo` is a OneToOneField).
   */
  predicate WellFormed(db: Db) {
    (forall d :: d in db.detalles ==> d.venta in db.ventas && d.articulo in db.articulos)
    && (forall i, j :: 0 <= i < j < |db.detalles| ==> db.detalles[i].articulo != db.detalles[j].articulo)
    && (forall p :: p in db.pagos ==> p.venta in db.ventas)
  }

  // ---------------------------------------------------------------------------
  // Totals
  // ---------------------------------------------------------------------------

  /** `venta.detalles`: the lines of sale `v`, in id order. */
  function LineasDe(detalles: seq<Detalle>, v: VentaId): (ls: seq<Detalle>)
    ensures forall d :: d in ls <==> d in detalles && d.venta == v
    ensures |ls| <= |detalles|
  {
    if detalles == [] then []
    else
      var last := detalles[|detalles| - 1];
      LineasDe(detalles[..|detalles| - 1], v) + (if last.venta == v then [last] else [])
  }

  /** Selecting the lines of a sale distributes over concatenation. */
  lemma {:induction false} LineasAppend(a: seq<Detalle>, b: seq<Detalle>, v: VentaId)
    ensures LineasDe(a + b, v) == LineasDe(a, v) + LineasDe(b, v)
    decreases |b|
  {
    if b != [] {
      assert (a + b)[..|a + b| - 1] == a + b[..|b| - 1];
      LineasAppend(a, b[..|b| - 1], v);
    } else {
      assert a + b == a;
    }
  }

  /** `values_list("articulo_id")`: the units on the lines of sale `v`, in line order. */
  function ArticulosDe(detalles: seq<Detalle>, v: VentaId): (ids: seq<ArticuloId>)
    ensures |ids| == |LineasDe(detalles, v)|
    ensures forall i :: 0 <= i < |ids| ==> ids[i] == LineasDe(detalles, v)[i].articulo
  {
    var ls := LineasDe(detalles, v);
    seq(|ls|, i requires 0 <= i < |ls| => ls[i].articulo)
  }

  /** Every unit on a line of a sale is a unit of some line of that sale, and conversely. */
  lemma ArticulosDeMembers(detalles: seq<Detalle>, v: VentaId, a: ArticuloId)
    ensures a in ArticulosDe(detalles, v) <==> exists d :: d in detalles && d.venta == v && d.articulo == a
  {
    var ls := LineasDe(detalles, v);
    var ids := ArticulosDe(detalles, v);
    if a in ids {
      var i :| 0 <= i < |ids| && ids[i] == a;
      assert ls[i] in ls;
    }
    if exists d :: d in detalles && d.venta == v && d.articulo == a {
      var d :| d in detalles && d.venta == v && d.articulo == a;
      assert d in ls;
      var i :| 0 <= i < |ls| && ls[i] == d;
      assert ids[i] == a;
    }
  }

  /** `Sum("precio")` over some lines, `or 0` when there are none. */
  function SumPrecio(ls: seq<Detalle>): (s: int)
    ensures (forall d :: d in ls ==> d.precio >= 0) ==> s >= 0
  {
    if ls == [] then 0 else SumPrecio(ls[..|ls| - 1]) + ls[|ls| - 1].precio
  }

  /** `Sum("descuento")` over some lines, `or 0` when there are none. */
  function SumDescuento(ls: seq<Detalle>): (s: int)
    ensures (forall d :: d in ls ==> d.descuento >= 0) ==> s >= 0
  {
    if ls == [] then 0 else SumDescuento(ls[..|ls| - 1]) + ls[|ls| - 1].descuento
  }

  /** Both sums are additive over concatenation. */
  lemma {:induction false} SumsAppend(a: seq<Detalle>, b: seq<Detalle>)
    ensures SumPrecio(a + b) == SumPrecio(a) + SumPrecio(b)
    ensures SumDescuento(a + b) == SumDescuento(a) + SumDescuento(b)
    decreases |b|
  {
    if b != [] {
      assert (a + b)[..|a + b| - 1] == a + b[..|b| - 1];
      SumsAppend(a, b[..|b| - 1]);
    } else {
      assert a + b == a;
    }
  }

  /** A line whose price and discount a DecimalField(12, 2) with minimum 0 accepts. */
  predicate LineaValida(d: Detalle) {
    0 <= d.precio && FitsMoney(d.precio) && 0 <= d.descuento && FitsMoney(d.descuento)
  }

  /**
   * The totals calculator: subtotal and descuento are the sums over the lines, impuestos is 0,
   * and total is subtotal - descuento + impuestos raised to 0 when negative. No lines give all
   * zeros; lines that passed validation give non-negative fields with total at most subtotal.
   */
  function TotalesDe(ls: seq<Detalle>): (t: Totales)
    ensures t.subtotal == SumPrecio(ls) && t.descuento == SumDescuento(ls) && t.impuestos == 0
    ensures t.total >= 0 && t.total >= t.subtotal - t.descuento + t.impuestos
    ensures t.total == 0 || t.total == t.subtotal - t.descuento + t.impuestos
    ensures ls == [] ==> t == CeroTotales
    ensures (forall d :: d in ls ==> LineaValida(d)) ==>
      t.subtotal >= 0 && t.descuento >= 0 && t.total <= t.subtotal
  {
    var subtotal := SumPrecio(ls);
    var descuento := SumDescuento(ls);
    var impuestos := 0;
    var total := subtotal - descuento + impuestos;
    Totales(subtotal, descuento, impuestos, if total < 0 then 0 else total)
  }

  /** The four totals fit their DecimalField(max_digits=12, decimal_places=2) columns. */
  predicate TotalesCaben(t: Totales) {
    FitsMoney(t.subtotal) && FitsMoney(t.descuento) && FitsMoney(t.impuestos) && FitsMoney(t.total)
  }

  /** The sale's stored totals are those of its current lines. */
  predicate TotalesAlDia(db: Db, v: VentaId) {
    v in db.ventas && db.ventas[v].totales == TotalesDe(LineasDe(db.detalles, v))
  }

  /**
   * Venta.recalcular_totales_por_id: writes the totals of the sale's lines to the sale and
   * changes nothing else; an id with no sale matches no row and changes nothing. The UPDATE
   * skips validation, so totals that do not fit their numeric(12, 2) columns reach the
   * database, which refuses the write: None.
   */
  function Recalcular(db: Db, v: VentaId): (r: Option<Db>)
    ensures r.None? <==> v in db.ventas && !TotalesCaben(TotalesDe(LineasDe(db.detalles, v)))
    ensures r.Some? ==> (r.value.articulos == db.articulos && r.value.detalles == db.detalles
      && r.value.pagos == db.pagos && r.value.ventas.Keys == db.ventas.Keys
      && (forall w :: w in db.ventas && w != v ==> r.value.ventas[w] == db.ventas[w]))
    ensures r.Some? && v in db.ventas ==>
      TotalesAlDia(r.value, v) && r.value.ventas[v] == db.ventas[v].(totales := r.value.ventas[v].totales)
    ensures v !in db.ventas ==> r == Some(db)
  {
    if v !in db.ventas then Some(db)
    else
      var t := TotalesDe(LineasDe(db.detalles, v));
      if !TotalesCaben(t) then None
      else Some(db.(ventas := db.ventas[v := db.ventas[v].(totales := t)]))
  }

  /** Recomputing twice with no line change in between gives what recomputing once gives. */
  lemma RecalcularIdempotent(db: Db, v: VentaId)
    requires Recalcular(db, v).Some?
    ensures Recalcular(Recalcular(db, v).value, v) == Recalcular(db, v)
  {
    var db1 := Recalcular(db, v).value;
    if v in db.ventas {
      var t := TotalesDe(LineasDe(db.detalles, v));
      assert db1.detalles == db.detalles && db1.ventas[v].totales == t;
      assert db1.ventas[v := db1.ventas[v].(totales := t)] == db1.ventas;
    }
  }

  /** Two lines whose prices each fit their column can still give a subtotal the sale's column refuses. */
  lemma RecalcularDesborda(v: VentaId, a: ArticuloId, b: ArticuloId)
    requires a != b
    ensures var db := Db(map[a := Disponible, b := Disponible], map[v := Venta(Borrador, CeroTotales, None, None)],
                         [Detalle(v, a, 999999999999, 0), Detalle(v, b, 999999999999, 0)], []);
      LineaValida(db.detalles[0]) && LineaValida(db.detalles[1]) && WellFormed(db) && Recalcular(db, v).None?
  {
    var ls := [Detalle(v, a, 999999999999, 0), Detalle(v, b, 999999999999, 0)];
    MoneyBound();
    assert ls[..1] == [ls[0]];
    assert ls[..1][..0] == [];
    assert LineasDe(ls, v) == ls;
    assert SumPrecio(ls[..1]) == 999999999999;
    assert SumPrecio(ls) == 1999999999998;
  }

  /** When every line keeps the default discount of 0 and a non-negative price, the total is the subtotal. */
  lemma {:induction false} SinDescuentoTotalEsSubtotal(ls: seq<Detalle>)
    requires forall d :: d in ls ==> d.descuento == 0 && d.precio >= 0
    ensures TotalesDe(ls).descuento == 0 && TotalesDe(ls).total == TotalesDe(ls).subtotal
    decreases |ls|
  {
    if ls != [] {
      var init := ls[..|ls| - 1];
      assert forall d :: d in init ==> d in ls;
      SinDescuentoTotalEsSubtotal(init);
    }
  }

  /** The worked example: 100.00 with no discount and 50.00 less 10.00 give 150.00, 10.00, 0.00 and 140.00. */
  lemma TotalesEjemplo(v: VentaId, a: ArticuloId, b: ArticuloId)
    ensures TotalesDe([Detalle(v, a, 10000, 0), Detalle(v, b, 5000, 1000)]) == Totales(15000, 1000, 0, 14000)
  {
    var ls := [Detalle(v, a, 10000, 0), Detalle(v, b, 5000, 1000)];
    assert ls[..1] == [Detalle(v, a, 10000, 0)];
    assert ls[..1][..0] == [];
    assert SumPrecio(ls[..1]) == 10000;
    assert SumDescuento(ls[..1]) == 0;
    assert SumPrecio(ls) == 15000;
    assert SumDescuento(ls) == 1000;
  }

  // ---------------------------------------------------------------------------
  // Validators
  // ---------------------------------------------------------------------------

  datatype TotalCampo = CampoSubtotal | CampoDescuento | CampoImpuestos | CampoTotal

  function Valor(t: Totales, c: TotalCampo): int {
    match c
    case CampoSubtotal => t.subtotal
    case CampoDescuento => t.descuento
    case CampoImpuestos => t.impuestos
    case CampoTotal => t.total
  }

  /** Venta.clean: every negative money field is reported under its own key; none negative passes. */
  method CleanVenta(t: Totales) returns (errors: set<TotalCampo>)
    ensures forall c :: c in errors <==> Valor(t, c) < 0
  {
    errors := {};
    var campos := [CampoSubtotal, CampoDescuento, CampoImpuestos, CampoTotal];
    for i := 0 to |campos|
      invariant forall c :: c in errors <==> c in campos[..i] && Valor(t, c) < 0
    {
      if Valor(t, campos[i]) < 0 {
        errors := errors + {campos[i]};
      }
    }
    assert campos[..|campos|] == campos;
  }

  /** Totals computed from validated lines never fail Venta.clean. */
  lemma RecalculadosLimpios(ls: seq<Detalle>, c: TotalCampo)
    requires forall d :: d in ls ==> LineaValida(d)
    ensures Valor(TotalesDe(ls), c) >= 0
  {
  }

  /** The unit states VentaDetalle.clean refuses: VENDIDO, BAJA and RESERVADO. */
  predicate Bloqueado(e: ArticuloEstado) {
    e == Vendido || e == Baja || e == Reservado
  }

  datatype DetalleCampo = CampoVenta | CampoArticulo | CampoPrecio | CampoDescuentoLinea

  /**
   * Why saving or deleting a line raises: field errors, a unit id with no row behind it, or
   * totals of its sale that the sale's columns cannot hold when they are recomputed.
   */
  datatype DetalleError = Invalido(campos: set<DetalleCampo>) | ArticuloInexistente | TotalesDesbordados

  /** Whether a line other than row `propio` already holds unit `a`. */
  predicate EnOtraLinea(detalles: seq<Detalle>, a: ArticuloId, propio: Option<nat>) {
    exists i :: 0 <= i < |detalles| && Some(i) != propio && detalles[i].articulo == a
  }

  /**
   * VentaDetalle.full_clean on a line `d` written to row `propio` (None for a new line): the
   * unit must exist; the sale must exist; price and discount must be non-negative cents that
   * fit the column; the unit must not be VENDIDO, BAJA or RESERVADO (DISPONIBLE, REPARACION
   * and DESECHO pass); and no other line may hold the unit.
   */
  function ValidarDetalle(db: Db, d: Detalle, propio: Option<nat>): (r: Option<DetalleError>)
    ensures d.articulo !in db.articulos <==> r == Some(ArticuloInexistente)
    ensures r.Some? ==> r.value != TotalesDesbordados && (r.value.Invalido? ==> r.value.campos != {})
    ensures r.None? <==>
      (d.venta in db.ventas && d.articulo in db.articulos && LineaValida(d)
       && !Bloqueado(db.articulos[d.articulo]) && !EnOtraLinea(db.detalles, d.articulo, propio))
    ensures d.articulo in db.articulos && r.Some? ==>
      (CampoArticulo in r.value.campos <==>
       (Bloqueado(db.articulos[d.articulo]) || EnOtraLinea(db.detalles, d.articulo, propio)))
    ensures d.articulo in db.articulos && r.Some? ==> (CampoVenta in r.value.campos <==> d.venta !in db.ventas)
    ensures d.articulo in db.articulos && r.Some? ==>
      (CampoPrecio in r.value.campos <==> !(0 <= d.precio && FitsMoney(d.precio)))
    ensures d.articulo in db.articulos && r.Some? ==>
      (CampoDescuentoLinea in r.value.campos <==> !(0 <= d.descuento && FitsMoney(d.descuento)))
  {
    if d.articulo !in db.articulos then Some(ArticuloInexistente)
    else
      var campos :=
        (if d.venta !in db.ventas then {CampoVenta} else {})
        + (if !(0 <= d.precio && FitsMoney(d.precio)) then {CampoPrecio} else {})
        + (if !(0 <= d.descuento && FitsMoney(d.descuento)) then {CampoDescuentoLinea} else {})
        + (if Bloqueado(db.articulos[d.articulo]) || EnOtraLinea(db.detalles, d.articulo, propio)
           then {CampoArticulo} else {});
      if campos == {} then None else Some(Invalido(campos))
  }

  /** The line guard lets DISPONIBLE, REPARACION and DESECHO units through. */
  lemma LineGuardPasses(db: Db, d: Detalle)
    requires d.articulo in db.articulos && d.venta in db.ventas && LineaValida(d)
    requires db.articulos[d.articulo] in {Disponible, Reparacion, Desecho}
    requires !EnOtraLinea(db.detalles, d.articulo, None)
    ensures ValidarDetalle(db, d, None).None?
  {
  }

  /** A payment the Pago fields accept: a non-negative amount that fits the column, a reference of at most 120 characters. */
  predicate PagoValido(p: Pago) {
    0 <= p.monto && FitsMoney(p.monto) && |p.referencia| <= 120
  }

  /** `pagos.aggregate(Sum("monto"))`, `or 0`: what has been paid towards sale `v`. */
  function Pagado(pagos: seq<Pago>, v: VentaId): (s: int)
    ensures (forall p :: p in pagos && p.venta == v ==> p.monto >= 0) ==> s >= 0
  {
    if pagos == [] then 0
    else Pagado(pagos[..|pagos| - 1], v) + (if pagos[|pagos| - 1].venta == v then pagos[|pagos| - 1].monto else 0)
  }

  // ---------------------------------------------------------------------------
  // Line hooks: save and delete schedule a recomputation of the line's own sale
  // ---------------------------------------------------------------------------

  /** What a line save or delete leaves in the tables, and the error it raised, if any. */
  datatype Guardado = Guardado(tablas: Db, error: Option<DetalleError>)

  /**
   * The recomputation the hooks register with on_commit. It runs once the line write is
   * committed, so when it raises the write stays and the sale keeps its old totals.
   */
  function Recomputar(db: Db, v: VentaId): (r: Guardado)
    ensures r.error.None? <==> Recalcular(db, v).Some?
    ensures r.error.None? ==> r.tablas == Recalcular(db, v).value
    ensures r.error.Some? ==> r == Guardado(db, Some(TotalesDesbordados))
  {
    match Recalcular(db, v)
    case Some(db1) => Guardado(db1, None)
    case None => Guardado(db, Some(TotalesDesbordados))
  }

  /**
   * VentaDetalle.save of a new line: full_clean, the insert, then the recomputation of its
   * sale. The line is stored exactly when full_clean passes, even when the recomputation
   * then raises; the save raises nothing exactly when full_clean passes and the new totals
   * fit the sale's columns.
   */
  function InsertarDetalle(db: Db, d: Detalle): (r: Guardado)
    ensures ValidarDetalle(db, d, None).Some? ==> r == Guardado(db, ValidarDetalle(db, d, None))
    ensures ValidarDetalle(db, d, None).None? ==> r == Recomputar(db.(detalles := db.detalles + [d]), d.venta)
    ensures r.tablas.detalles == if ValidarDetalle(db, d, None).None? then db.detalles + [d] else db.detalles
    ensures r.error.None? <==>
      ValidarDetalle(db, d, None).None? && TotalesCaben(TotalesDe(LineasDe(db.detalles + [d], d.venta)))
    ensures r.error.None? ==> TotalesAlDia(r.tablas, d.venta)
    ensures WellFormed(db) ==> WellFormed(r.tablas)
  {
    match ValidarDetalle(db, d, None)
    case Some(e) => Guardado(db, Some(e))
    case None =>
      var db1 := db.(detalles := db.detalles + [d]);
      assert forall x :: x in db1.detalles ==> x in db.detalles || x == d;
      Recomputar(db1, d.venta)
  }

  /**
   * VentaDetalle.save of the existing line in row `i`: full_clean, the update, then the
   * recomputation of the sale it now belongs to, which may raise after the update is stored.
   */
  function ActualizarDetalle(db: Db, i: nat, d: Detalle): (r: Guardado)
    requires i < |db.detalles|
    ensures ValidarDetalle(db, d, Some(i)).Some? ==> r == Guardado(db, ValidarDetalle(db, d, Some(i)))
    ensures ValidarDetalle(db, d, Some(i)).None? ==> r == Recomputar(db.(detalles := db.detalles[i := d]), d.venta)
    ensures r.tablas.detalles == if ValidarDetalle(db, d, Some(i)).None? then db.detalles[i := d] else db.detalles
    ensures r.error.None? <==>
      ValidarDetalle(db, d, Some(i)).None? && TotalesCaben(TotalesDe(LineasDe(db.detalles[i := d], d.venta)))
    ensures r.error.None? ==> TotalesAlDia(r.tablas, d.venta)
    ensures WellFormed(db) ==> WellFormed(r.tablas)
  {
    match ValidarDetalle(db, d, Some(i))
    case Some(e) => Guardado(db, Some(e))
    case None =>
      var ds := db.detalles[i := d];
      assert forall x :: x in ds ==> x in db.detalles || x == d;
      Recomputar(db.(detalles := ds), d.venta)
  }

  /**
   * VentaDetalle.delete of row `i`: the delete, then the recomputation of the sale it belonged
   * to. No check on the unit; the delete stays even when the recomputation raises.
   */
  function EliminarDetalle(db: Db, i: nat): (r: Guardado)
    requires i < |db.detalles|
    ensures r == Recomputar(db.(detalles := db.detalles[..i] + db.detalles[i + 1..]), db.detalles[i].venta)
    ensures r.tablas.detalles == db.detalles[..i] + db.detalles[i + 1..]
    ensures r.error.Some? ==> r.tablas.ventas == db.ventas
    ensures r.error.None? && db.detalles[i].venta in db.ventas ==> TotalesAlDia(r.tablas, db.detalles[i].venta)
    ensures WellFormed(db) ==> WellFormed(r.tablas)
  {
    var ds := db.detalles[..i] + db.detalles[i + 1..];
    assert forall x :: x in ds ==> x in db.detalles;
    assert forall j, k :: 0 <= j < k < |ds| ==> ds[j] == db.detalles[if j < i then j else j + 1] && ds[k] == db.detalles[if k < i then k else k + 1];
    Recomputar(db.(detalles := ds), db.detalles[i].venta)
  }

  /** Adding a line to one sale leaves every other sale's totals up to date. */
  lemma InsertarDetalleLocal(db: Db, d: Detalle, w: VentaId)
    requires w != d.venta && TotalesAlDia(db, w)
    ensures TotalesAlDia(InsertarDetalle(db, d).tablas, w)
  {
    LineasAppend(db.detalles, [d], w);
    LineasUna(d, w);
    assert LineasDe(db.detalles + [d], w) == LineasDe(db.detalles, w);
  }

  /** The lines of sale `w` among a single line. */
  lemma LineasUna(d: Detalle, w: VentaId)
    ensures LineasDe([d], w) == if d.venta == w then [d] else []
  {
    assert [d][..0] == [];
  }

  /** Removing a line of another sale does not change the lines of sale `w`. */
  lemma SinLineaAjena(pre: seq<Detalle>, post: seq<Detalle>, d: Detalle, w: VentaId)
    requires d.venta != w
    ensures LineasDe(pre + [d] + post, w) == LineasDe(pre, w) + LineasDe(post, w)
  {
    LineasAppend(pre + [d], post, w);
    LineasAppend(pre, [d], w);
    LineasUna(d, w);
    assert LineasDe(pre + [d], w) == LineasDe(pre, w);
  }

  /** Deleting a line of another sale leaves the lines of sale `w` as they were. */
  lemma EliminarLineaAjena(ds: seq<Detalle>, i: nat, w: VentaId)
    requires i < |ds| && ds[i].venta != w
    ensures LineasDe(ds[..i] + ds[i + 1..], w) == LineasDe(ds, w)
  {
    var pre, post := ds[..i], ds[i + 1..];
    assert ds == pre + [ds[i]] + post;
    SinLineaAjena(pre, post, ds[i], w);
    LineasAppend(pre, post, w);
  }

  /** Deleting a line leaves the totals of every other sale up to date. */
  lemma EliminarDetalleLocal(db: Db, i: nat, w: VentaId)
    requires i < |db.detalles| && w != db.detalles[i].venta && TotalesAlDia(db, w)
    ensures TotalesAlDia(EliminarDetalle(db, i).tablas, w)
  {
    var r := EliminarDetalle(db, i).tablas;
    assert r.ventas[w] == db.ventas[w];
    EliminarLineaAjena(db.detalles, i, w);
  }

  // ---------------------------------------------------------------------------
  // The tables, updated in place
  // ---------------------------------------------------------------------------

  class Tienda {
    var articulos: map<ArticuloId, ArticuloEstado>
    var ventas: map<VentaId, Venta>
    var detalles: seq<Detalle>
    var pagos: seq<Pago>

    function State(): Db
      reads this
    {
      Db(articulos, ventas, detalles, pagos)
    }

    ghost predicate Valid()
      reads this
    {
      WellFormed(State())
    }

    /** Existing units and sales, with no lines and no payments yet. */
    constructor (articulos: map<ArticuloId, ArticuloEstado>, ventas: map<VentaId, Venta>)
      ensures State() == Db(articulos, ventas, [], []) && Valid()
    {
      this.articulos := articulos;
      this.ventas := ventas;
      this.detalles := [];
      this.pagos := [];
    }

    /**
     * Venta.recalcular_totales_por_id: aggregate the sale's lines and update its row;
     * `desborde` when the database refuses the totals, and then nothing is written.
     */
    method RecalcularTotalesPorId(v: VentaId) returns (desborde: bool)
      modifies this
      ensures desborde <==> Recalcular(old(State()), v).None?
      ensures State() == if desborde then old(State()) else Recalcular(old(State()), v).value
    {
      var ls := LineasDe(detalles, v);
      var subtotal := SumPrecio(ls);
      var descuento := SumDescuento(ls);
      var impuestos := 0;
      var total := subtotal - descuento + impuestos;
      if total < 0 {
        total := 0;
      }
      var t := Totales(subtotal, descuento, impuestos, total);
      if v in ventas {
        if !TotalesCaben(t) {
          return true;
        }
        ventas := ventas[v := ventas[v].(totales := t)];
      }
      return false;
    }

    /** The rollback of an atomic block: every table back to the state it started from. */
    method Restaurar(s: Db)
      modifies this
      ensures State() == s
    {
      articulos, ventas, detalles, pagos := s.articulos, s.ventas, s.detalles, s.pagos;
    }

    /** VentaDetalle.save of a new line. */
    method GuardarDetalle(d: Detalle) returns (error: Option<DetalleError>)
      requires Valid()
      modifies this
      ensures Valid()
      ensures Guardado(State(), error) == InsertarDetalle(old(State()), d)
    {
      error := ValidarDetalle(State(), d, None);
      if error.None? {
        detalles := detalles + [d];
        var desborde := RecalcularTotalesPorId(d.venta);
        if desborde {
          error := Some(TotalesDesbordados);
        }
      }
    }

    /** VentaDetalle.save of the existing line in row `i`. */
    method ModificarDetalle(i: nat, d: Detalle) returns (error: Option<DetalleError>)
      requires Valid() && i < |detalles|
      modifies this
      ensures Valid()
      ensures Guardado(State(), error) == ActualizarDetalle(old(State()), i, d)
    {
      error := ValidarDetalle(State(), d, Some(i));
      if error.None? {
        detalles := detalles[i := d];
        var desborde := RecalcularTotalesPorId(d.venta);
        if desborde {
          error := Some(TotalesDesbordados);
        }
      }
    }

    /** VentaDetalle.delete of row `i`. */
    method BorrarDetalle(i: nat) returns (error: Option<DetalleError>)
      requires Valid() && i < |detalles|
      modifies this
      ensures Valid()
      ensures Guardado(State(), error) == EliminarDetalle(old(State()), i)
    {
      var v := detalles[i].venta;
      detalles := detalles[..i] + detalles[i + 1..];
      var desborde := RecalcularTotalesPorId(v);
      error := if desborde then Some(TotalesDesbordados) else None;
    }
  }
}
