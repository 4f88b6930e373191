/**
 The four HTTP handlers as pure functions from a request and the answers of
 the CRM calls to the response: which status is returned, which remote calls
 are issued (in order) before it, and what the JSON body carries. A remote
 call's answer is a parameter; a call that is never issued has its answer
 ignored.
 */
module Handlers {
  import opened JsValues
  import opened Crm
  import opened OfferReader
  import opened OfferPatches

  datatype Request = Request(verb: string, query: map<string, JsValue>, body: JsValue)

  /** A call to the CRM's REST interface. */
  datatype Call =
    | FetchDeal(dealId: JsValue)
    | FetchContact(contactId: string)
    | PatchDeal(dealId: JsValue, properties: Patch)

  /** The JSON body sent back. */
  datatype Payload =
    | NoContent
    | Problem(error: string)
    | UpstreamProblem(error: string, details: Fault)
    | Offer(data: DealData)
    | Done(message: string)

  datatype Response = Response(status: int, calls: seq<Call>, payload: Payload)

  const MissingIdMessage := "deal_id es requerido"
  const MethodMessage := "Método no permitido"
  const ReadFailureMessage := "Error al obtener datos de HubSpot"
  const WriteFailureMessage := "Error al actualizar HubSpot"

  /** The deal id of the query string, `Undefined` when absent. */
  function QueryId(req: Request): JsValue {
    if IdField in req.query then req.query[IdField] else Undefined
  }

  /** The contact whose name is shown: the first associated one. */
  function ShownContact(deal: DealRecord): Option<string> {
    if deal.contactIds != [] then Some(deal.contactIds[0]) else None
  }

  /** The contact snapshot the name is built from: none when the deal has
      no associated contact. */
  function FetchedContact(deal: DealRecord, contactReply: Reply<ContactRecord>): Option<ContactRecord> {
    if ShownContact(deal).Some? && contactReply.Answered? then Some(contactReply.value) else None
  }

  /** `getDealData`. It has no method check: every method but OPTIONS reads
      the deal. */
  function GetDealData(req: Request, dealReply: Reply<DealRecord>, contactReply: Reply<ContactRecord>,
                       parse: NumberParsers): (r: Response)
    ensures r.status in {200, 204, 400, 500}
    ensures r.status == 204 <==> req.verb == "OPTIONS"
    ensures r.status == 400 <==> req.verb != "OPTIONS" && !QueryId(req).Truthy()
    ensures r.calls != [] <==> req.verb != "OPTIONS" && QueryId(req).Truthy()
    ensures r.calls != [] ==> r.calls[0] == FetchDeal(QueryId(req))
    ensures |r.calls| == 2 <==>
              r.calls != [] && dealReply.Answered? && ShownContact(dealReply.value).Some?
    ensures |r.calls| == 2 ==> r.calls[1] == FetchContact(ShownContact(dealReply.value).value)
    ensures |r.calls| <= 2
    ensures r.calls != [] && !(dealReply.Answered? && ShownContact(dealReply.value).Some?) ==>
              r.calls == [FetchDeal(QueryId(req))]
    ensures r.status == 200 <==>
              && r.calls != []
              && dealReply.Answered?
              && (ShownContact(dealReply.value).Some? ==> contactReply.Answered?)
    ensures r.status == 200 ==> r.payload.Offer? && r.payload.data.nombre != ""
    ensures r.status == 200 ==>
              r.payload.data == NormalizeDeal(dealReply.value, FetchedContact(dealReply.value, contactReply), parse)
    ensures r.status == 500 ==> r.payload.UpstreamProblem? && r.payload.error == ReadFailureMessage
  {
    if req.verb == "OPTIONS" then
      Response(204, [], NoContent)
    else
      var id := QueryId(req);
      if !id.Truthy() then
        Response(400, [], Problem(MissingIdMessage))
      else
        match dealReply
        case Failed(fault) =>
          Response(500, [FetchDeal(id)], UpstreamProblem(ReadFailureMessage, fault))
        case Answered(deal) =>
          match ShownContact(deal)
          case None =>
            Response(200, [FetchDeal(id)], Offer(NormalizeDeal(deal, None, parse)))
          case Some(contactId) =>
            var calls := [FetchDeal(id), FetchContact(contactId)];
            match contactReply
            case Failed(fault) => Response(500, calls, UpstreamProblem(ReadFailureMessage, fault))
            case Answered(contact) => Response(200, calls, Offer(NormalizeDeal(deal, Some(contact), parse)))
  }

  /** The message of a successful mutation. */
  function DoneMessage(kind: Mutation): string {
    match kind
    case Accept => "Oferta aceptada"
    case Adjust => "Oferta ajustada correctamente"
    case Reject => "Oferta rechazada"
  }

  /** `aceptarOferta`, `ajustarOferta` and `rechazarOferta`, which differ only
      in the patch and the message. A body that cannot be destructured
      (`undefined` or `null`) throws inside the `try` and ends in the
      `catch` with a 500, before `deal_id` is looked at. */
  function MutateOffer(kind: Mutation, req: Request, patchReply: Reply<()>): (r: Response)
    ensures r.status in {200, 204, 400, 405, 500}
    ensures r.status == 204 <==> req.verb == "OPTIONS"
    ensures r.status == 405 <==> req.verb != "OPTIONS" && req.verb != "POST"
    ensures r.status == 400 <==>
              req.verb == "POST" && req.body.Destructurable() && !Field(req.body, IdField).Truthy()
    ensures r.calls != [] <==>
              req.verb == "POST" && req.body.Destructurable() && Field(req.body, IdField).Truthy()
    ensures r.calls != [] ==> r.calls == [PatchDeal(Field(req.body, IdField), PatchFor(kind, req.body))]
    ensures r.status == 200 <==> r.calls != [] && patchReply.Answered?
    ensures r.status == 200 ==> r.payload == Done(DoneMessage(kind))
    ensures r.status == 500 && r.calls == [] <==> req.verb == "POST" && !req.body.Destructurable()
    ensures r.status == 500 ==> r.payload.UpstreamProblem? && r.payload.error == WriteFailureMessage
  {
    if req.verb == "OPTIONS" then
      Response(204, [], NoContent)
    else if req.verb != "POST" then
      Response(405, [], Problem(MethodMessage))
    else if !req.body.Destructurable() then
      Response(500, [], UpstreamProblem(WriteFailureMessage, BodyNotObject))
    else
      var id := Field(req.body, IdField);
      if !id.Truthy() then
        Response(400, [], Problem(MissingIdMessage))
      else
        var calls := [PatchDeal(id, PatchFor(kind, req.body))];
        match patchReply
        case Failed(fault) => Response(500, calls, UpstreamProblem(WriteFailureMessage, fault))
        case Answered(_) => Response(200, calls, Done(DoneMessage(kind)))
  }

  /** Without an associated contact no contact is fetched, so the answer a
      contact fetch would have had does not matter and the fallback name is
      shown. */
  lemma NoContactNoFetch(req: Request, deal: DealRecord, c1: Reply<ContactRecord>, c2: Reply<ContactRecord>,
                         parse: NumberParsers)
    requires deal.contactIds == []
    ensures forall c | c in GetDealData(req, Answered(deal), c1, parse).calls :: !c.FetchContact?
    ensures GetDealData(req, Answered(deal), c1, parse) == GetDealData(req, Answered(deal), c2, parse)
    ensures GetDealData(req, Answered(deal), c1, parse).status != 500
    ensures GetDealData(req, Answered(deal), c1, parse).status == 200 ==>
              GetDealData(req, Answered(deal), c1, parse).payload.data.nombre == FallbackName
  {
  }

  /** A failed CRM call is never reported as a success: the read and every
      mutator answer 500 once a call they issued fails. */
  lemma FailureIsNeverSuccess(kind: Mutation, req: Request, dealReply: Reply<DealRecord>,
                              contactReply: Reply<ContactRecord>, parse: NumberParsers, fault: Fault)
    ensures MutateOffer(kind, req, Failed(fault)).calls != [] ==> MutateOffer(kind, req, Failed(fault)).status == 500
    ensures dealReply.Failed? && GetDealData(req, dealReply, contactReply, parse).calls != [] ==>
              GetDealData(req, dealReply, contactReply, parse).status == 500
    ensures contactReply.Failed? && |GetDealData(req, dealReply, contactReply, parse).calls| == 2 ==>
              GetDealData(req, dealReply, contactReply, parse).status == 500
  {
  }

  /** The processed flag the accept and adjust handlers write reads back as
      processed, and no handler ever writes anything else to it. */
  lemma WrittenFlagReadsProcessed(kind: Mutation, req: Request, patchReply: Reply<()>)
    ensures forall c | c in MutateOffer(kind, req, patchReply).calls ::
              c.PatchDeal? && (ProcessedKey in c.properties ==>
                && StoredValue(c.properties[ProcessedKey]).Some?
                && DecodeProcessed(StoredValue(c.properties[ProcessedKey]).value))
  {
    ProcessedFlagOnlySet(kind, req.body);
  }

  /** The read handler's record for a deal whose stored rate is the text
      "2.5" and which has no contact. */
  lemma ReadExample(parse: NumberParsers, reply: Reply<ContactRecord>)
    requires parse.float("2.5") == Num(2.5)
    ensures var deal := DealRecord(Missing, Missing, Missing, Text("2.5"), Missing, Missing, []);
            var req := Request("GET", map[IdField := Str("42")], Undefined);
            GetDealData(req, Answered(deal), reply, parse)
              == Response(200, [FetchDeal(Str("42"))],
                          Offer(DealData(FallbackName, 0.0, 0, 0.0, 0.025, Text(""), false)))
  {
  }
}
