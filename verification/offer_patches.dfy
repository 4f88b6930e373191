/**
 The write direction of the offer handlers: the property map each mutator
 (`aceptarOferta`, `ajustarOferta`, `rechazarOferta`) sends to the CRM as a
 partial update of the deal, built from the fields of the request body.
 */
module OfferPatches {
  import opened JsValues

  /** Property name to value. A value may be `Undefined`: the adjust handler
      copies absent request fields as they are. */
  type Patch = map<string, JsValue>

  // Properties of the deal in the CRM.
  const StageKey := "dealstage"
  const ProcessedKey := "ajuste_pantalla"
  const OriginKey := "utm_source"
  const RequestedAmountKey := "nuevo_monto_solicitado"
  /** Spelled as the adjust handler spells it ("solcitados"). */
  const RequestedPeriodsKey := "plazos_solcitados"
  const AmountKey := "amount"
  const PeriodsKey := "periodos"
  const PaymentKey := "pago_por_periodo"

  /** The pipeline stage an accepted or adjusted offer moves to. */
  const DecidedStage := "34528397"
  /** The only value any handler writes to the processed flag. */
  const ProcessedText := "true"

  // Fields of the request body.
  const IdField := "deal_id"
  const MarkField := "marcar_procesado"
  const OriginField := "utm_source"
  const RequestedAmountField := "nuevo_monto_solicitado"
  const RequestedPeriodsField := "plazos_solicitados"
  const ApprovedAmountField := "monto_aprobado"
  const FinalPeriodsField := "periodos_finales"
  const FinalPaymentField := "pago_final"

  /** The three mutators. */
  datatype Mutation = Accept | Adjust | Reject

  /** Adds the request's origin tag under `utm_source` when the body carries
      a truthy one. */
  function WithOrigin(p: Patch, body: JsValue): Patch {
    var origin := Field(body, OriginField);
    if origin.Truthy() then p[OriginKey := origin] else p
  }

  /** Sets the processed flag to the text "true" when the body asks for it
      with a truthy `marcar_procesado`, then adds the origin tag. */
  function WithMarks(p: Patch, body: JsValue): Patch {
    var marked := if Field(body, MarkField).Truthy() then p[ProcessedKey := Str(ProcessedText)] else p;
    WithOrigin(marked, body)
  }

  /** The patch of `aceptarOferta`. */
  function AcceptPatch(body: JsValue): (p: Patch)
    ensures forall k :: k in p <==>
              || k == StageKey
              || (k == ProcessedKey && Field(body, MarkField).Truthy())
              || (k == OriginKey && Field(body, OriginField).Truthy())
    ensures StageKey in p && p[StageKey] == Str(DecidedStage)
    ensures ProcessedKey in p ==> p[ProcessedKey] == Str(ProcessedText)
    ensures OriginKey in p ==> p[OriginKey] == Field(body, OriginField)
  {
    WithMarks(map[StageKey := Str(DecidedStage)], body)
  }

  /** The five properties only the adjust handler writes, each paired with
      the request field it is copied from. */
  function AdjustedTerms(body: JsValue): Patch {
    map[
      RequestedAmountKey := Field(body, RequestedAmountField),
      RequestedPeriodsKey := Field(body, RequestedPeriodsField),
      AmountKey := Field(body, ApprovedAmountField),
      PeriodsKey := Field(body, FinalPeriodsField),
      PaymentKey := Field(body, FinalPaymentField)]
  }

  /** The patch of `ajustarOferta`: the stage, the five terms verbatim, and
      the same flag and origin rules as acceptance. */
  function AdjustPatch(body: JsValue): (p: Patch)
    ensures forall k :: k in p <==>
              || k in {StageKey, RequestedAmountKey, RequestedPeriodsKey, AmountKey, PeriodsKey, PaymentKey}
              || (k == ProcessedKey && Field(body, MarkField).Truthy())
              || (k == OriginKey && Field(body, OriginField).Truthy())
    ensures StageKey in p && p[StageKey] == Str(DecidedStage)
    ensures RequestedAmountKey in p && p[RequestedAmountKey] == Field(body, RequestedAmountField)
    ensures RequestedPeriodsKey in p && p[RequestedPeriodsKey] == Field(body, RequestedPeriodsField)
    ensures AmountKey in p && p[AmountKey] == Field(body, ApprovedAmountField)
    ensures PeriodsKey in p && p[PeriodsKey] == Field(body, FinalPeriodsField)
    ensures PaymentKey in p && p[PaymentKey] == Field(body, FinalPaymentField)
    ensures ProcessedKey in p ==> p[ProcessedKey] == Str(ProcessedText)
    ensures OriginKey in p ==> p[OriginKey] == Field(body, OriginField)
  {
    WithMarks(AdjustedTerms(body)[StageKey := Str(DecidedStage)], body)
  }

  /** The patch of `rechazarOferta`: at most the origin tag. */
  function RejectPatch(body: JsValue): (p: Patch)
    ensures p.Keys <= {OriginKey}
    ensures OriginKey in p <==> Field(body, OriginField).Truthy()
    ensures OriginKey in p ==> p[OriginKey] == Field(body, OriginField)
  {
    WithOrigin(map[], body)
  }

  function PatchFor(kind: Mutation, body: JsValue): Patch {
    match kind
    case Accept => AcceptPatch(body)
    case Adjust => AdjustPatch(body)
    case Reject => RejectPatch(body)
  }

  /** The processed flag is only ever set, never cleared: the one value any
      mutator writes to it is "true", and rejection does not write it. */
  lemma ProcessedFlagOnlySet(kind: Mutation, body: JsValue)
    ensures ProcessedKey in PatchFor(kind, body) ==> PatchFor(kind, body)[ProcessedKey] == Str(ProcessedText)
    ensures ProcessedKey in PatchFor(kind, body) <==> kind != Reject && Field(body, MarkField).Truthy()
  {
  }

  /** Accept and adjust always move the deal to the decided stage; reject
      never touches the stage. */
  lemma StageOnlyOnDecision(kind: Mutation, body: JsValue)
    ensures StageKey in PatchFor(kind, body) <==> kind != Reject
    ensures kind != Reject ==> PatchFor(kind, body)[StageKey] == Str(DecidedStage)
  {
  }

  /** The adjust patch is the accept patch plus the five adjusted terms. */
  lemma AdjustExtendsAccept(body: JsValue)
    ensures AdjustPatch(body) == AcceptPatch(body) + AdjustedTerms(body)
  {
  }

  /** The reject patch is what the accept patch carries under the origin
      tag, and nothing else. */
  lemma RejectKeepsOnlyOrigin(body: JsValue)
    ensures RejectPatch(body) == map k | k in AcceptPatch(body) && k == OriginKey :: AcceptPatch(body)[k]
    ensures !Field(body, OriginField).Truthy() ==> RejectPatch(body) == map[]
  {
  }

  /** Accepting with `marcar_procesado: true` sends the stage and the flag. */
  lemma AcceptMarkedExample()
    ensures AcceptPatch(Object(map["deal_id" := Str("42"), "marcar_procesado" := Bool(true)]))
            == map[StageKey := Str(DecidedStage), ProcessedKey := Str(ProcessedText)]
  {
  }

  /** Adjusting with only `monto_aprobado` and `pago_final` sends those two,
      the stage, and the three other terms as `undefined`. */
  lemma AdjustPartialExample(amount: JsValue, payment: JsValue)
    ensures AdjustPatch(Object(map["deal_id" := Str("42"), "monto_aprobado" := amount, "pago_final" := payment]))
            == map[
                 StageKey := Str(DecidedStage),
                 RequestedAmountKey := Undefined,
                 RequestedPeriodsKey := Undefined,
                 AmountKey := amount,
                 PeriodsKey := Undefined,
                 PaymentKey := payment]
  {
  }
}
