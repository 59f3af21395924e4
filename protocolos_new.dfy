/** The current Protocolo create handler: it numbers the new row from the
    newest one, normalises the request's fields, stores the row, and when
    asked to, notifies by WhatsApp without waiting for the outcome. */
module ProtocolosNew {
  import opened Js
  import opened Http
  import opened Store
  import opened Schema
  import opened Processo
  import opened Whatsapp
  import opened ProtocolosSendWhatsApp

  /** The fields of the request body the handler reads. */
  datatype ProtocoloRequest = ProtocoloRequest(
    num_inscricao: JsValue,
    assunto: JsValue,
    anos_analise: JsValue,
    nome: JsValue,
    cpf: JsValue,
    cnpj: JsValue,
    telefone: JsValue,
    enviar_whatsapp: JsValue)

  /** The `data` of `protocolo.create` for a counter and its `processo`. */
  function NewRow(body: ProtocoloRequest, num: int, processo: string, creator: nat): (r: ProtocoloRow)
    ensures r.num_processo == num && r.processo == processo && r.creator == creator
    ensures r.num_inscricao.Some? && IsUpper(r.num_inscricao.value)
    ensures r.anos_analise.Some? && IsUpper(r.anos_analise.value)
    ensures IsUpper(r.assunto) && IsUpper(r.nome) && IsUpper(r.cpf) && IsUpper(r.cnpj)
    ensures r.cpf == "" <==> !Truthy(body.cpf)
    ensures r.cnpj == "" <==> !Truthy(body.cnpj)
    ensures r.telefone == StringOf(body.telefone)
    ensures r.enviar_whatsapp <==> Truthy(body.enviar_whatsapp) && Truthy(body.telefone)
    ensures !r.whatsapp_enviado
  {
    ProtocoloRow(
      num_inscricao := Some(UpperString(body.num_inscricao)),
      num_processo := num,
      processo := processo,
      assunto := UpperString(body.assunto),
      anos_analise := Some(UpperString(body.anos_analise)),
      nome := UpperString(body.nome),
      cpf := UpperOrEmpty(body.cpf),
      cnpj := UpperOrEmpty(body.cnpj),
      telefone := StringOf(body.telefone),
      enviar_whatsapp := Truthy(body.enviar_whatsapp) && Truthy(body.telefone),
      whatsapp_enviado := false,
      creator := creator)
  }

  /** Every text field is stored as its text upper-cased (an absent one as
      "UNDEFINED"), and `cpf`/`cnpj` keep their text exactly when they are truthy. */
  lemma NewRowStoresUpperCasedText(body: ProtocoloRequest, num: int, processo: string, creator: nat)
    ensures NewRow(body, num, processo, creator).num_inscricao == Some(ToUpper(StringOf(body.num_inscricao)))
    ensures NewRow(body, num, processo, creator).anos_analise == Some(ToUpper(StringOf(body.anos_analise)))
    ensures NewRow(body, num, processo, creator).nome == ToUpper(StringOf(body.nome))
    ensures NewRow(body, num, processo, creator).assunto == ToUpper(StringOf(body.assunto))
    ensures Truthy(body.cpf) ==> NewRow(body, num, processo, creator).cpf == ToUpper(StringOf(body.cpf))
    ensures Truthy(body.cnpj) ==> NewRow(body, num, processo, creator).cnpj == ToUpper(StringOf(body.cnpj))
  {}

  /** A row that asks for a notification always stores a phone the notifier
      handler accepts (a non-empty `telefone`). */
  lemma RequestedNotificationHasPhone(body: ProtocoloRequest, num: int, processo: string, creator: nat)
    ensures NewRow(body, num, processo, creator).enviar_whatsapp ==> NewRow(body, num, processo, creator).telefone != ""
  {
    var t := body.telefone;
    if t.Num? && t.n != 0 {
      assert StringOf(t) == IntToString(t.n);
    }
  }

  /** A request without a phone stores the text "undefined" and asks for no
      notification; that text is non-empty, so the notifier handler's phone
      guard lets such a row through. */
  lemma AbsentPhoneStoredAsUndefined(body: ProtocoloRequest, num: int, processo: string, creator: nat)
    requires body.telefone == Undefined
    ensures NewRow(body, num, processo, creator).telefone == "undefined"
    ensures !NewRow(body, num, processo, creator).enviar_whatsapp
  {}

  /** The newest row of the table, without its id. */
  function NewestRow(newest: Option<Entry<ProtocoloRow>>): Option<ProtocoloRow> {
    match newest
    case None => None
    case Some(e) => Some(e.value)
  }

  /** The row the handler stores for a signed-in request, before any notification. */
  function CreatedRow(
    newest: Option<Entry<ProtocoloRow>>, body: ProtocoloRequest, year: nat, month: nat, creator: nat): ProtocoloRow
  {
    var num := NextNumProcesso(NewestRow(newest), year);
    NewRow(body, num, FormatProcesso(month, num, YearSuffix(year)), creator)
  }

  /** `NewProtocolo(req, res)`. `year` and `month` are the server clock's
      `getFullYear()` and `getMonth() + 1`; `gateway` is the notifier's answer.
      The answer carries the row as created, whatever the notifier does. */
  method NewProtocolo(
    table: Table<ProtocoloRow>, httpMethod: string, session: Option<Session>,
    body: ProtocoloRequest, year: nat, month: nat, gateway: Delivery)
    returns (resp: Response<Entry<ProtocoloRow>>, sent: Option<Payload>)
    requires table.Valid()
    modifies table
    ensures table.Valid()
    ensures httpMethod != "POST" ==>
      resp == MethodNotAllowed(httpMethod) && sent.None? && table.rows == old(table.rows)
    ensures httpMethod == "POST" && session.None? ==>
      resp == Response(401, "Usuário não está autenticado.", None) && sent.None? && table.rows == old(table.rows)
    ensures httpMethod == "POST" && session.Some? ==>
      var created := Entry(old(table.nextId), CreatedRow(old(table.Newest()), body, year, month, session.value.userId));
      && resp == Response(200, "Protocolo registrado com sucesso.", Some(created))
      && sent == (if created.value.enviar_whatsapp then Some(PayloadOf(created.value)) else None)
      && table.rows == old(table.rows) +
           [if created.value.enviar_whatsapp && gateway == Delivered then Entry(created.id, MarkSent(created.value)) else created]
  {
    if httpMethod != "POST" {
      return MethodNotAllowed(httpMethod), None;
    }
    if session.None? {
      return Response(401, "Usuário não está autenticado.", None), None;
    }
    var row := CreatedRow(table.Newest(), body, year, month, session.value.userId);
    var before := table.rows;
    var protocolo := table.Create(row);
    sent := None;
    if protocolo.value.enviar_whatsapp {
      // Not awaited: the notifier's outcome never reaches the answer.
      var payload := SendWhatsApp(table, protocolo, gateway);
      sent := Some(payload);
      UpdateNewest(before, protocolo, MarkSent);
    }
    resp := Response(200, "Protocolo registrado com sucesso.", Some(protocolo));
  }

  /** Two signed-in requests in the same month of a four-digit year, one
      after the other, get consecutive counters and `processo` values. */
  method TwoRequestsInOneMonth(
    table: Table<ProtocoloRow>, session: Session, first: ProtocoloRequest, second: ProtocoloRequest,
    year: nat, month: nat, gateway1: Delivery, gateway2: Delivery)
    returns (r1: Response<Entry<ProtocoloRow>>, r2: Response<Entry<ProtocoloRow>>)
    requires table.Valid() && 1000 <= year <= 9999
    modifies table
    ensures r1.status == 200 && r2.status == 200 && r1.data.Some? && r2.data.Some?
    ensures r2.data.value.value.num_processo == r1.data.value.value.num_processo + 1
    ensures r2.data.value.value.processo ==
      FormatProcesso(month, r1.data.value.value.num_processo + 1, YearSuffix(year))
  {
    var sent1, sent2;
    r1, sent1 := NewProtocolo(table, "POST", Some(session), first, year, month, gateway1);
    ghost var last := NewestRow(table.Newest()).value;
    assert last.num_processo == r1.data.value.value.num_processo;
    assert last.processo == r1.data.value.value.processo;
    CounterIncrementsWithinYear(last, month, year);
    r2, sent2 := NewProtocolo(table, "POST", Some(session), second, year, month, gateway2);
  }
}
