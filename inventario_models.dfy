/**
 * The second copy of `InventarioItem` (inventario/models.py). Its `clean` checks the
 * decommission fields before clearing them, in the other order, and has no `save` override.
 */
module InventarioLegacy {
  import opened Wrappers
  import opened InventarioItems

  /**
   * This copy's clean: the estado forces activo off for BAJA and DESECHO; an inactive item
   * with a missing fecha_baja or motivo_baja fails with both reported, before anything is
   * cleared; an active item loses both fields; then a baja before the alta fails.
   */
  function LegacyCleanResult(f: ItemFields): (c: CleanOutcome)
    ensures c.fields.estado == f.estado && c.fields.fechaAlta == f.fechaAlta
    ensures c.fields.activo == (f.activo && !EstadoDeBaja(f.estado))
    ensures !c.fields.activo && Faltantes(f) != {} ==>
      c.error == Some(Requeridos(Faltantes(f))) && c.fields == f.(activo := false)
    ensures c.fields.activo ==> c.fields.fechaBaja.None? && c.fields.motivoBaja.None? && c.error.None?
    ensures c.error.None? <==> Coherente(c.fields)
  {
    var g := if EstadoDeBaja(f.estado) then f.(activo := false) else f;
    if !g.activo && Faltantes(g) != {} then
      CleanOutcome(g, Some(Requeridos(Faltantes(g))))
    else
      var h := if g.activo then g.(fechaBaja := None, motivoBaja := None) else g;
      if h.fechaBaja.Some? && h.fechaAlta.Some? && h.fechaBaja.value < h.fechaAlta.value then
        CleanOutcome(h, Some(BajaAntesDeAlta))
      else
        CleanOutcome(h, None)
  }

  /** Both copies of clean rewrite the same fields and raise the same error on every item. */
  lemma SameAsDomain(f: ItemFields)
    ensures LegacyCleanResult(f) == CleanResult(f)
  {
  }

  /** This copy's item: the same fields, and the default `save`, which does not clean. */
  class InventarioItem {
    var estado: ItemEstado
    var activo: bool
    var fechaAlta: Option<Fecha>
    var fechaBaja: Option<Fecha>
    var motivoBaja: Option<MotivoId>

    function Fields(): ItemFields
      reads this
    {
      ItemFields(estado, activo, fechaAlta, fechaBaja, motivoBaja)
    }

    constructor (f: ItemFields)
      ensures Fields() == f
    {
      estado := f.estado;
      activo := f.activo;
      fechaAlta := f.fechaAlta;
      fechaBaja := f.fechaBaja;
      motivoBaja := f.motivoBaja;
    }

    /** clean, rewriting the fields in place as LegacyCleanResult describes. */
    method Clean() returns (error: Option<CleanError>)
      modifies this
      ensures Fields() == LegacyCleanResult(old(Fields())).fields
      ensures error == LegacyCleanResult(old(Fields())).error
    {
      if estado == Baja || estado == Desecho {
        activo := false;
      }
      if !activo {
        var errors: set<BajaCampo> := {};
        if fechaBaja.None? {
          errors := errors + {FechaBaja};
        }
        if motivoBaja.None? {
          errors := errors + {MotivoBaja};
        }
        assert errors == Faltantes(Fields());
        if errors != {} {
          return Some(Requeridos(errors));
        }
      }
      if activo {
        fechaBaja := None;
        motivoBaja := None;
      }
      if fechaBaja.Some? && fechaAlta.Some? && fechaBaja.value < fechaAlta.value {
        return Some(BajaAntesDeAlta);
      }
      return None;
    }
  }
}
