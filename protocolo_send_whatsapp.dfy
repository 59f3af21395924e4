/** The older WhatsApp notifier handler: `??` defaults, first-occurrence
    `replace`, and `num_processo` as the process. */
module ProtocoloSendWhatsApp {
  import opened Js
  import opened Http
  import opened Store
  import opened Schema
  import opened Whatsapp
  import opened ProtocoloNew

  /** The body posted by the older handler. */
  function OlderPayloadOf(p: LegacyProtocoloRow): Payload {
    PayloadStrippingFirst(p.num_inscricao, p.num_processo, p.assunto, p.anos_analise, p.nome, p.cpf, p.telefone)
  }

  /** Only a null column becomes "Não se aplica"; an empty one is sent empty,
      where the newer payload would send "Não se aplica". */
  lemma OlderPayloadKeepsEmptyText(p: LegacyProtocoloRow)
    requires p.num_inscricao == Some("")
    ensures OlderPayloadOf(p).inscricao == ""
    ensures LegacyPayloadOf(p).inscricao == NotApplicable
  {}

  /** The two payloads of the same row differ at most in `inscricao`,
      `analise`, `cpf` and `whatsapp`, and agree on a row whose CPF has at most
      one "." and one "-", whose phone has at most one "-", and whose
      defaulted columns are not empty. */
  lemma OlderAndNewerPayloads(p: LegacyProtocoloRow)
    ensures OlderPayloadOf(p).processo == LegacyPayloadOf(p).processo == p.num_processo
    ensures OlderPayloadOf(p).assunto == LegacyPayloadOf(p).assunto
    ensures OlderPayloadOf(p).nome == LegacyPayloadOf(p).nome
    ensures multiset(p.cpf)['.'] <= 1 && multiset(p.cpf)['-'] <= 1 && multiset(p.telefone)['-'] <= 1
         && p.num_inscricao != Some("") && p.anos_analise != Some("")
         ==> OlderPayloadOf(p) == LegacyPayloadOf(p)
  {
    if multiset(p.cpf)['.'] <= 1 && multiset(p.cpf)['-'] <= 1 && multiset(p.telefone)['-'] <= 1
       && p.num_inscricao != Some("") && p.anos_analise != Some("") {
      PayloadsAgreeOnSimpleInput(p.num_inscricao, p.num_processo, p.assunto, p.anos_analise, p.nome, p.cpf, p.telefone);
    }
  }

  /** `SendWhatsApp(req, res)` of the older API. An unknown id makes the
      property access throw, which answers 500; a failed webhook call is
      swallowed and the success message is still returned. */
  method HandleOlderSendWhatsApp(
    table: Table<LegacyProtocoloRow>, httpMethod: string, session: Option<Session>, id: nat, gateway: Delivery)
    returns (resp: Response<()>, sent: Option<Payload>)
    requires table.Valid()
    modifies table
    ensures table.Valid() && table.nextId == old(table.nextId)
    ensures httpMethod != "POST" ==>
      resp == MethodNotAllowed(httpMethod) && sent.None? && table.rows == old(table.rows)
    ensures httpMethod == "POST" && session.None? ==>
      resp == Response(401, "Usuário não está autenticado", None) && sent.None? && table.rows == old(table.rows)
    ensures httpMethod == "POST" && session.Some? && old(table.Find(id)).None? ==>
      resp == Response(500, "Ocorreu um erro.", None) && sent.None? && table.rows == old(table.rows)
    ensures httpMethod == "POST" && session.Some? && old(table.Find(id)).Some? ==>
      var p := old(table.Find(id)).value;
      if p.telefone == "" then
        resp == Response(400, "O registro não contém telefone.", None) && sent.None?
        && table.rows == old(table.rows)
      else
        resp == Response(200, "Notificação enviada com sucesso.", None) && sent == Some(OlderPayloadOf(p))
        && table.rows == (if gateway == Delivered then UpdateIn(old(table.rows), id, MarkLegacySent) else old(table.rows))
  {
    if httpMethod != "POST" {
      return MethodNotAllowed(httpMethod), None;
    }
    if session.None? {
      return Response(401, "Usuário não está autenticado", None), None;
    }
    var found := table.Find(id);
    if found.None? {
      return Response(500, "Ocorreu um erro.", None), None;
    }
    var protocolo := found.value;
    if protocolo.telefone == "" {
      return Response(400, "O registro não contém telefone.", None), None;
    }
    sent := Some(OlderPayloadOf(protocolo));
    if gateway == Delivered {
      var _ := table.Update(id, MarkLegacySent);
    }
    resp := Response(200, "Notificação enviada com sucesso.", None);
  }
}
