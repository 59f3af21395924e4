/** The older Protocolo create handler: every text field is stored as
    `String(x).toUpperCase()`, and the WhatsApp notification is built and
    awaited inline, raising the sent flag only on an ok answer. */
module ProtocoloNew {
  import opened Js
  import opened Http
  import opened Store
  import opened Schema
  import opened Whatsapp

  /** The fields of the request body the handler reads. */
  datatype LegacyRequest = LegacyRequest(
    num_inscricao: JsValue,
    num_processo: JsValue,
    assunto: JsValue,
    anos_analise: JsValue,
    nome: JsValue,
    cpf: JsValue,
    telefone: JsValue,
    enviar_whatsapp: JsValue)

  /** The `data` of `protocolo.create`. */
  function NewLegacyRow(body: LegacyRequest, user: nat): (r: LegacyProtocoloRow)
    ensures r.num_inscricao.Some? && IsUpper(r.num_inscricao.value)
    ensures r.anos_analise.Some? && IsUpper(r.anos_analise.value)
    ensures IsUpper(r.num_processo) && IsUpper(r.assunto) && IsUpper(r.nome) && IsUpper(r.cpf)
    ensures r.telefone == StringOf(body.telefone)
    ensures r.enviar_whatsapp <==> Truthy(body.enviar_whatsapp) && Truthy(body.telefone)
    ensures !r.whatsapp_enviado && r.user == user
  {
    LegacyProtocoloRow(
      num_inscricao := Some(UpperString(body.num_inscricao)),
      num_processo := UpperString(body.num_processo),
      assunto := UpperString(body.assunto),
      anos_analise := Some(UpperString(body.anos_analise)),
      nome := UpperString(body.nome),
      cpf := UpperString(body.cpf),
      telefone := StringOf(body.telefone),
      enviar_whatsapp := Truthy(body.enviar_whatsapp) && Truthy(body.telefone),
      whatsapp_enviado := false,
      user := user)
  }

  /** Every text field is stored as `String(x).toUpperCase()` of the
      request's value, and the phone as `String(x)`. */
  lemma NewLegacyRowStoresUpperCasedText(body: LegacyRequest, user: nat)
    ensures NewLegacyRow(body, user).num_inscricao == Some(ToUpper(StringOf(body.num_inscricao)))
    ensures NewLegacyRow(body, user).anos_analise == Some(ToUpper(StringOf(body.anos_analise)))
    ensures NewLegacyRow(body, user).num_processo == ToUpper(StringOf(body.num_processo))
    ensures NewLegacyRow(body, user).assunto == ToUpper(StringOf(body.assunto))
    ensures NewLegacyRow(body, user).nome == ToUpper(StringOf(body.nome))
    ensures NewLegacyRow(body, user).cpf == ToUpper(StringOf(body.cpf))
  {}

  /** An absent field is not defaulted: it is stored as the text "UNDEFINED",
      which is truthy, so the payload sends it instead of "Não se aplica". */
  lemma AbsentFieldsStoredAsUNDEFINED(body: LegacyRequest, user: nat)
    requires body.num_inscricao == Undefined && body.cpf == Undefined
    ensures NewLegacyRow(body, user).num_inscricao == Some("UNDEFINED")
    ensures NewLegacyRow(body, user).cpf == "UNDEFINED"
    ensures LegacyPayloadOf(NewLegacyRow(body, user)).inscricao == "UNDEFINED"
  {
    UndefinedIsStoredAsText();
  }

  /** The inline `protocoloInfo`: as the current notifier's, with
      `num_processo` as the process. */
  function LegacyPayloadOf(p: LegacyProtocoloRow): Payload {
    PayloadStrippingAll(p.num_inscricao, p.num_processo, p.assunto, p.anos_analise, p.nome, p.cpf, p.telefone)
  }

  /** `update({ data: { whatsapp_enviado: true } })` on an older row. */
  function MarkLegacySent(p: LegacyProtocoloRow): LegacyProtocoloRow {
    p.(whatsapp_enviado := true)
  }

  /** Marking an older row as sent raises its flag and changes no other column. */
  lemma MarkLegacySentOnlyRaisesFlag(p: LegacyProtocoloRow)
    ensures MarkLegacySent(p).whatsapp_enviado
    ensures MarkLegacySent(p).(whatsapp_enviado := p.whatsapp_enviado) == p
  {}

  /** `NewProtocolo(req, res)` of the older API. `gateway` is the answer of
      the awaited webhook call; a failed call is caught and the answer is
      still 200 with the row as created. */
  method NewLegacyProtocolo(
    table: Table<LegacyProtocoloRow>, httpMethod: string, session: Option<Session>,
    body: LegacyRequest, gateway: Delivery)
    returns (resp: Response<Entry<LegacyProtocoloRow>>, sent: Option<Payload>)
    requires table.Valid()
    modifies table
    ensures table.Valid()
    ensures httpMethod != "POST" ==>
      resp == MethodNotAllowed(httpMethod) && sent.None? && table.rows == old(table.rows)
    ensures httpMethod == "POST" && session.None? ==>
      resp == Response(401, "Usuário não está autenticado.", None) && sent.None? && table.rows == old(table.rows)
    ensures httpMethod == "POST" && session.Some? ==>
      var created := Entry(old(table.nextId), NewLegacyRow(body, session.value.userId));
      && resp == Response(200, "Protocolo registrado com sucesso.", Some(created))
      && sent == (if created.value.enviar_whatsapp then Some(LegacyPayloadOf(created.value)) else None)
      && table.rows == old(table.rows) +
           [if created.value.enviar_whatsapp && gateway == Delivered
            then Entry(created.id, MarkLegacySent(created.value)) else created]
  {
    if httpMethod != "POST" {
      return MethodNotAllowed(httpMethod), None;
    }
    if session.None? {
      return Response(401, "Usuário não está autenticado.", None), None;
    }
    var before := table.rows;
    var protocolo := table.Create(NewLegacyRow(body, session.value.userId));
    sent := None;
    if protocolo.value.enviar_whatsapp {
      sent := Some(LegacyPayloadOf(protocolo.value));
      if gateway == Delivered {
        var _ := table.Update(protocolo.id, MarkLegacySent);
        UpdateNewest(before, protocolo, MarkLegacySent);
      }
    }
    resp := Response(200, "Protocolo registrado com sucesso.", Some(protocolo));
  }
}
