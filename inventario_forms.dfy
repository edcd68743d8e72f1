/**
 * The inventory forms: InventarioItemForm (alta and edition, never a baja) and
 * InventarioBajaForm (the baja screen).
 */
module InventarioForms {
  import opened Wrappers
  import opened Digits
  import opened Decimals
  import opened InventarioItems

  /** The model field's estado choices, in declaration order. */
  const ModelChoices: seq<ItemEstado> := [EnUso, Almacen, Baja, Desecho]

  /** The estados an alta or an edition may set. */
  predicate EstadoDeAlta(e: ItemEstado) {
    e == EnUso || e == Almacen
  }

  /** `r` is `s` with some elements left out, the rest in their order. */
  predicate Subsecuencia(r: seq<ItemEstado>, s: seq<ItemEstado>)
    decreases |s|
  {
    r == [] || (s != [] && if r[0] == s[0] then Subsecuencia(r[1..], s[1..]) else Subsecuencia(r, s[1..]))
  }

  /** The estado choices InventarioItemForm offers: those of `choices` that are EN_USO or ALMACEN, in order. */
  function AltaChoices(choices: seq<ItemEstado>): (r: seq<ItemEstado>)
    ensures forall e :: e in r <==> e in choices && EstadoDeAlta(e)
    ensures Subsecuencia(r, choices)
    ensures |r| <= |choices|
  {
    if choices == [] then []
    else
      var rest := AltaChoices(choices[1..]);
      if EstadoDeAlta(choices[0]) then
        assert ([choices[0]] + rest)[1..] == rest;
        [choices[0]] + rest
      else
        assert rest != [] ==> rest[0] in rest && rest[0] != choices[0];
        rest
  }

  /** The form offers exactly EN_USO and then ALMACEN. */
  lemma OfferedChoices()
    ensures AltaChoices(ModelChoices) == [EnUso, Almacen]
  {
    assert ModelChoices[1..][1..][1..][1..] == [];
  }

  /**
   * InventarioItemForm.clean on estado: a missing or empty estado becomes ALMACEN, and so do
   * BAJA and DESECHO; EN_USO and ALMACEN are kept.
   */
  function NormalizeEstado(e: Option<ItemEstado>): (r: ItemEstado)
    ensures EstadoDeAlta(r) && !EstadoDeBaja(r)
    ensures e.Some? && EstadoDeAlta(e.value) ==> r == e.value
    ensures !(e.Some? && EstadoDeAlta(e.value)) ==> r == Almacen
  {
    var estado := if e.None? then Almacen else e.value;
    if estado == Baja || estado == Desecho then Almacen else estado
  }

  /** Normalising a normalised estado changes nothing. */
  lemma NormalizeIdempotent(e: Option<ItemEstado>)
    ensures NormalizeEstado(Some(NormalizeEstado(e))) == NormalizeEstado(e)
  {
  }

  /** Why precio_sugerido_venta is refused: below the minimum 0, or a digit limit. */
  datatype PrecioError = BelowMinimum | DigitError(error: DecimalError)

  /**
   * The optional precio_sugerido_venta field (min_value 0, max_digits 12, decimal_places 2):
   * an empty value passes; a given one must be non-negative, with at most two decimal places
   * and at most ten digits before the point. Every failing validator reports.
   */
  function ValidarPrecioSugerido(v: Option<Dec>): (errs: set<PrecioError>)
    ensures v.None? ==> errs == {}
    ensures v.Some? ==> (BelowMinimum in errs <==> IsNegative(v.value))
    ensures errs == {} <==> (v.None? ||
      (!IsNegative(v.value) && DecimalPlaces(v.value) <= 2 && DigitCount(v.value) - DecimalPlaces(v.value) <= 10))
  {
    if v.None? then {}
    else
      (if IsNegative(v.value) then {BelowMinimum} else {})
      + (match DecimalCheck(v.value, MoneyDigits, MoneyPlaces)
         case Some(e) => {DigitError(e)}
         case None => {})
  }

  /** A price given in cents passes exactly when it is below 10^12 cents (ten whole digits). */
  lemma PrecioSugeridoCents(c: int)
    requires c >= 0
    ensures ValidarPrecioSugerido(Some(CentsDec(c))) == {} <==> c < Pow10(MoneyDigits)
  {
    CentsFit(c);
  }

  /** What reaches InventarioBajaForm.clean. */
  datatype BajaData = BajaData(estado: Option<ItemEstado>, fechaBaja: Option<Fecha>, motivoBaja: Option<MotivoId>)

  datatype BajaFormCampo = CampoEstado | CampoFechaBaja | CampoMotivoBaja

  /**
   * InventarioBajaForm.clean: an estado other than BAJA or DESECHO is an error on estado;
   * for BAJA or DESECHO, a missing fecha_baja and a missing motivo_baja are each an error of
   * their own, both reported.
   */
  method CleanBaja(d: BajaData) returns (errors: set<BajaFormCampo>)
    ensures CampoEstado in errors <==> !(d.estado.Some? && EstadoDeBaja(d.estado.value))
    ensures CampoFechaBaja in errors <==> d.estado.Some? && EstadoDeBaja(d.estado.value) && d.fechaBaja.None?
    ensures CampoMotivoBaja in errors <==> d.estado.Some? && EstadoDeBaja(d.estado.value) && d.motivoBaja.None?
  {
    errors := {};
    var deBaja := d.estado == Some(Baja) || d.estado == Some(Desecho);
    if !deBaja {
      errors := errors + {CampoEstado};
    }
    if deBaja {
      if d.fechaBaja.None? {
        errors := errors + {CampoFechaBaja};
      }
      if d.motivoBaja.None? {
        errors := errors + {CampoMotivoBaja};
      }
    }
  }
}
