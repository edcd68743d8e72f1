/** The sale forms (ventas/forms.py): adding a line to a sale, and entering a payment. */
module VentasForms {
  import opened Wrappers
  import opened Articulos
  import opened VentasDomain
  import opened VentasServices

  /** VentaDetalleForm's unit choices: the units in state DISPONIBLE (their display order is not modelled). */
  function OfertaArticulos(arts: map<ArticuloId, ArticuloEstado>): (ofrecidos: set<ArticuloId>)
    ensures ofrecidos <= arts.Keys
    ensures forall a :: a in ofrecidos ==> !Bloqueado(arts[a])
  {
    set a | a in arts && arts[a] == Disponible
  }

  /** A unit is offered exactly when it is DISPONIBLE; REPARACION and DESECHO units, which the line guard would let through, are not. */
  lemma OfertaExacta(arts: map<ArticuloId, ArticuloEstado>, a: ArticuloId)
    requires a in arts
    ensures a in OfertaArticulos(arts) <==> arts[a] == Disponible
  {
  }

  datatype DetalleFormError = ArticuloEnOtraVenta

  /** Whether some line holds unit `a` (the reverse one-to-one `venta_detalle` exists). */
  predicate TieneLinea(detalles: seq<Detalle>, a: ArticuloId) {
    exists i :: 0 <= i < |detalles| && detalles[i].articulo == a
  }

  /**
   * VentaDetalleForm.clean: a chosen unit that already has a line is refused on the unit field;
   * no unit chosen, or a unit without a line, passes.
   */
  function CleanDetalleForm(detalles: seq<Detalle>, articulo: Option<ArticuloId>): (r: Option<DetalleFormError>)
    ensures r.Some? <==> articulo.Some? && TieneLinea(detalles, articulo.value)
  {
    if articulo.Some? && TieneLinea(detalles, articulo.value) then Some(ArticuloEnOtraVenta) else None
  }

  /**
   * A line the form accepts (an offered unit that has no line, with a price and discount the
   * fields accept, for an existing sale) is also accepted when it is saved.
   */
  lemma FormularioAceptaLinea(db: Db, d: Detalle)
    requires d.venta in db.ventas && LineaValida(d)
    requires d.articulo in OfertaArticulos(db.articulos)
    requires CleanDetalleForm(db.detalles, Some(d.articulo)).None?
    ensures ValidarDetalle(db, d, None).None?
  {
    assert !EnOtraLinea(db.detalles, d.articulo, None);
  }

  /** A unit the form refuses for already having a line would be refused by the save too. */
  lemma FormularioRechazaRepetido(db: Db, d: Detalle)
    requires d.articulo in db.articulos
    requires CleanDetalleForm(db.detalles, Some(d.articulo)).Some?
    ensures ValidarDetalle(db, d, None).Some? && CampoArticulo in ValidarDetalle(db, d, None).value.campos
  {
    var i :| 0 <= i < |db.detalles| && db.detalles[i].articulo == d.articulo;
    assert Some(i) != None;
    assert EnOtraLinea(db.detalles, d.articulo, None);
  }

  datatype MontoError = MontoNegativo

  /** PagoForm.clean_monto: an empty amount passes as it is, a negative one is refused, any other is returned unchanged. */
  function CleanMonto(monto: Option<int>): (r: Result<Option<int>, MontoError>)
    ensures r.Err? <==> monto.Some? && monto.value < 0
    ensures r.Ok? ==> r.value == monto
  {
    match monto
    case None => Ok(None)
    case Some(m) => if m < 0 then Err(MontoNegativo) else Ok(monto)
  }

  /**
   * An amount clean_monto returns gets past marcar_pagada's amount check, and one it refuses
   * fails it; an empty amount, which clean_monto lets through, is refused there.
   */
  lemma MontoDelFormulario(db: Db, v: VentaId, metodo: MetodoPago, monto: Option<int>, referencia: string,
                           exigir: bool, now: Instant)
    requires v in db.ventas && db.ventas[v].estado != Cancelada && db.ventas[v].estado != Entregada
    ensures MarcarPagada(db, v, metodo, monto, referencia, exigir, now) == Err(MontoInvalido) <==>
      (CleanMonto(monto).Err? || monto.None?)
  {
    if monto.Some? && monto.value >= 0 && Recalcular(db, v).Some? {
      var r := MarcarPagada(db, v, metodo, monto, referencia, exigir, now);
      var db1 := Recalcular(db, v).value;
      assert r == Cobrar(db1, v, metodo, monto.value, referencia, exigir, now);
      CobrarNoEsMonto(db1, v, metodo, monto.value, referencia, exigir, now);
    }
  }
}
