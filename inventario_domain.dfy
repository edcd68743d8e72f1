/** Physical units for sale (`Articulo`): their lifecycle states and the serie constraint. */
module Articulos {
  import opened Wrappers

  type ArticuloId = int

  /** The six states of a unit (DISPONIBLE, RESERVADO, VENDIDO, REPARACION, BAJA, DESECHO). */
  datatype ArticuloEstado = Disponible | Reservado | Vendido | Reparacion | Baja | Desecho

  /** The partial unique constraint on `serie` applies only to a present, non-empty serie. */
  predicate SerieRestringida(serie: Option<string>) {
    serie.Some? && serie.value != ""
  }

  /** Constraint uniq_articulo_serie holds over the table: no two rows share a restricted serie. */
  predicate SeriesUnicas(series: map<ArticuloId, Option<string>>) {
    forall a, b :: a in series && b in series && a != b && SerieRestringida(series[a]) ==> series[a] != series[b]
  }

  /**
   * Whether the database accepts writing `serie` to row `id` (an insert or an update):
   * exactly when the table still meets the constraint afterwards. A null or empty serie
   * is always accepted, however many other rows have one.
   */
  function AdmiteSerie(series: map<ArticuloId, Option<string>>, id: ArticuloId, serie: Option<string>): (ok: bool)
    requires SeriesUnicas(series)
    ensures ok <==> SeriesUnicas(series[id := serie])
    ensures !SerieRestringida(serie) ==> ok
  {
    AdmiteSerieExacto(series, id, serie);
    !SerieRestringida(serie) || forall b :: b in series && b != id ==> series[b] != serie
  }

  /** The constraint survives a write exactly when the serie is unrestricted or no other row holds it. */
  lemma AdmiteSerieExacto(series: map<ArticuloId, Option<string>>, id: ArticuloId, serie: Option<string>)
    requires SeriesUnicas(series)
    ensures SeriesUnicas(series[id := serie]) <==>
      !SerieRestringida(serie) || forall b :: b in series && b != id ==> series[b] != serie
  {
    var t := series[id := serie];
    if SerieRestringida(serie) && !(forall b :: b in series && b != id ==> series[b] != serie) {
      var b :| b in series && b != id && series[b] == serie;
      assert t[id] == t[b];
    }
  }
}

/** Internal inventory items (`InventarioItem`) and their decommission (baja) rules. */
module InventarioItems {
  import opened Wrappers

  datatype ItemEstado = EnUso | Almacen | Baja | Desecho

  /** A calendar day. */
  type Fecha = int

  /** Primary keys of `MotivoBaja` rows; the database issues them from 1. */
  type MotivoId = k: int | k >= 1 witness 1

  /** The fields the decommission rules read and rewrite. */
  datatype ItemFields = ItemFields(
    estado: ItemEstado,
    activo: bool,
    fechaAlta: Option<Fecha>,
    fechaBaja: Option<Fecha>,
    motivoBaja: Option<MotivoId>)

  datatype BajaCampo = FechaBaja | MotivoBaja

  /** The errors of `clean`: the missing decommission fields, together, or a baja before the alta. */
  datatype CleanError = Requeridos(campos: set<BajaCampo>) | BajaAntesDeAlta

  /** What `clean` leaves in the item's fields, and the error it raised, if any. */
  datatype CleanOutcome = CleanOutcome(fields: ItemFields, error: Option<CleanError>)

  predicate EstadoDeBaja(e: ItemEstado) {
    e == Baja || e == Desecho
  }

  /** The decommission fields of `f` that are missing. */
  function Faltantes(f: ItemFields): set<BajaCampo> {
    (if f.fechaBaja.None? then {FechaBaja} else {}) + (if f.motivoBaja.None? then {MotivoBaja} else {})
  }

  /**
   * A coherent item: a BAJA or DESECHO item is inactive; an item is active exactly when it
   * has no fecha_baja, and exactly when it has no motivo_baja; and a baja never precedes
   * the alta.
   */
  predicate Coherente(f: ItemFields) {
    (EstadoDeBaja(f.estado) ==> !f.activo)
    && (f.activo <==> f.fechaBaja.None?)
    && (f.activo <==> f.motivoBaja.None?)
    && (f.fechaBaja.Some? && f.fechaAlta.Some? ==> f.fechaBaja.value >= f.fechaAlta.value)
  }

  /**
   * InventarioItem.clean: the estado forces activo off for BAJA and DESECHO; an active item
   * loses its decommission fields; an inactive one must have both, dated no earlier than
   * the alta. The rewriting happens before any error, so it stays even when clean fails.
   */
  function CleanResult(f: ItemFields): (c: CleanOutcome)
    ensures c.fields.estado == f.estado && c.fields.fechaAlta == f.fechaAlta
    ensures c.fields.activo == (f.activo && !EstadoDeBaja(f.estado))
    ensures c.fields.activo ==> c.fields.fechaBaja.None? && c.fields.motivoBaja.None? && c.error.None?
    ensures !c.fields.activo ==> c.fields.fechaBaja == f.fechaBaja && c.fields.motivoBaja == f.motivoBaja
    ensures c.error.None? <==> Coherente(c.fields)
    ensures !c.fields.activo && Faltantes(f) != {} ==> c.error == Some(Requeridos(Faltantes(f)))
  {
    var activo := f.activo && !EstadoDeBaja(f.estado);
    if activo then
      CleanOutcome(f.(activo := true, fechaBaja := None, motivoBaja := None), None)
    else
      var g := f.(activo := false);
      if Faltantes(g) != {} then CleanOutcome(g, Some(Requeridos(Faltantes(g))))
      else if g.fechaAlta.Some? && g.fechaBaja.value < g.fechaAlta.value then CleanOutcome(g, Some(BajaAntesDeAlta))
      else CleanOutcome(g, None)
  }

  /** Cleaning twice is cleaning once: the second clean rewrites nothing and raises the same error. */
  lemma CleanIdempotent(f: ItemFields)
    ensures CleanResult(CleanResult(f).fields) == CleanResult(f)
  {
  }

  /**
   * `auto_now_add` in the write: an insert sets the alta date to today, whatever it held;
   * an update leaves every field as it is.
   */
  function Stamp(f: ItemFields, today: Fecha, insercion: bool): (g: ItemFields)
    ensures g == f.(fechaAlta := g.fechaAlta)
    ensures insercion ==> g.fechaAlta == Some(today)
    ensures !insercion ==> g == f
  {
    if insercion then f.(fechaAlta := Some(today)) else f
  }

  /**
   * The row `save` writes as the source has it: full_clean, then the write, whose
   * `auto_now_add` sets the alta date of an insert only after clean has compared the dates.
   */
  function SaveAsWritten(f: ItemFields, today: Fecha, insercion: bool): (stored: Option<ItemFields>)
    ensures stored.None? <==> CleanResult(f).error.Some?
    ensures stored.Some? && insercion ==> stored.value.fechaAlta == Some(today)
    ensures stored.Some? && (!insercion || f.fechaAlta == Some(today)) ==> Coherente(stored.value)
  {
    var c := CleanResult(f);
    if c.error.Some? then None else Some(Stamp(c.fields, today, insercion))
  }

  /** A first save of an item already in BAJA, dated before today, stores a baja earlier than its alta. */
  lemma SaveAsWrittenStoresBajaBeforeAlta()
    ensures var f := ItemFields(Baja, false, None, Some(9), Some(1));
      SaveAsWritten(f, 10, true).Some? && !Coherente(SaveAsWritten(f, 10, true).value)
  {
    var f := ItemFields(Baja, false, None, Some(9), Some(1));
    assert CleanResult(f).error.None?;
  }

  /** The corrected save: the alta date is set before clean runs, so clean checks the baja against it. */
  function SaveChecked(f: ItemFields, today: Fecha, insercion: bool): (stored: Option<ItemFields>)
    ensures stored.Some? ==> Coherente(stored.value)
    ensures stored.Some? && insercion ==> stored.value.fechaAlta == Some(today)
    ensures !insercion || f.fechaAlta == Some(today) ==> stored == SaveAsWritten(f, today, insercion)
  {
    var c := CleanResult(Stamp(f, today, insercion));
    if c.error.Some? then None else Some(c.fields)
  }

  /** The model's `InventarioItem` row, with the copy last written to the database. */
  class InventarioItem {
    var estado: ItemEstado
    var activo: bool
    var fechaAlta: Option<Fecha>
    var fechaBaja: Option<Fecha>
    var motivoBaja: Option<MotivoId>
    /** The row as stored by the last successful save, if any. */
    var guardado: Option<ItemFields>

    function Fields(): ItemFields
      reads this
    {
      ItemFields(estado, activo, fechaAlta, fechaBaja, motivoBaja)
    }

    /** Every stored row is coherent. */
    ghost predicate Valid()
      reads this
    {
      guardado.Some? ==> Coherente(guardado.value)
    }

    /** A new, unsaved item: it has no alta date until its first save. */
    constructor (estado: ItemEstado, activo: bool, fechaBaja: Option<Fecha>, motivoBaja: Option<MotivoId>)
      ensures Valid()
      ensures Fields() == ItemFields(estado, activo, None, fechaBaja, motivoBaja) && guardado == None
    {
      this.estado := estado;
      this.activo := activo;
      this.fechaAlta := None;
      this.fechaBaja := fechaBaja;
      this.motivoBaja := motivoBaja;
      this.guardado := None;
    }

    /** clean, rewriting the fields in place as CleanResult describes. */
    method Clean() returns (error: Option<CleanError>)
      modifies this
      ensures Fields() == CleanResult(old(Fields())).fields
      ensures error == CleanResult(old(Fields())).error
      ensures guardado == old(guardado)
    {
      if estado == Baja || estado == Desecho {
        activo := false;
      }
      if activo {
        fechaBaja := None;
        motivoBaja := None;
        return None;
      }
      var errors: set<BajaCampo> := {};
      if fechaBaja.None? {
        errors := errors + {FechaBaja};
      }
      if motivoBaja.None? {
        errors := errors + {MotivoBaja};
      }
      assert errors == Faltantes(Fields());
      if errors != {} {
        return Some(Requeridos(errors));
      }
      if fechaBaja.Some? && fechaAlta.Some? && fechaBaja.value < fechaAlta.value {
        return Some(BajaAntesDeAlta);
      }
      return None;
    }

    /**
     * save as the source has it: full_clean, then the write, which stamps the alta date when
     * it is an insert (no row stored yet).
     */
    method SaveUnchecked(today: Fecha) returns (error: Option<CleanError>)
      modifies this
      ensures error == CleanResult(old(Fields())).error
      ensures error.Some? ==> guardado == old(guardado) && Fields() == CleanResult(old(Fields())).fields
      ensures error.None? ==> guardado == SaveAsWritten(old(Fields()), today, old(guardado).None?) && guardado == Some(Fields())
    {
      var insercion := guardado.None?;
      error := Clean();
      if error.None? {
        if insercion {
          fechaAlta := Some(today);
        }
        guardado := Some(Fields());
      }
    }

    /** The corrected save: the alta date first, then full_clean, then the write. Only coherent rows are stored. */
    method Save(today: Fecha) returns (error: Option<CleanError>)
      requires Valid()
      modifies this
      ensures Valid()
      ensures error == CleanResult(Stamp(old(Fields()), today, old(guardado).None?)).error
      ensures Fields() == CleanResult(Stamp(old(Fields()), today, old(guardado).None?)).fields
      ensures error.Some? ==> guardado == old(guardado)
      ensures error.None? ==> guardado == SaveChecked(old(Fields()), today, old(guardado).None?) && guardado == Some(Fields())
    {
      if guardado.None? {
        fechaAlta := Some(today);
      }
      error := Clean();
      if error.None? {
        guardado := Some(Fields());
      }
    }
  }
}
