/** The current WhatsApp notifier: `sendWhatsApp`, which posts a Protocolo's
    payload and raises its `whatsapp_enviado` flag only on an ok answer, and
    the `SendWhatsApp` request handler that calls it for a stored row. */
module ProtocolosSendWhatsApp {
  import opened Js
  import opened Http
  import opened Store
  import opened Schema
  import opened Whatsapp

  /** `protocoloInfo` built from a row. */
  function PayloadOf(p: ProtocoloRow): Payload {
    PayloadStrippingAll(p.num_inscricao, p.processo, p.assunto, p.anos_analise, p.nome, p.cpf, p.telefone)
  }

  /** `update({ data: { whatsapp_enviado: true } })` */
  function MarkSent(p: ProtocoloRow): ProtocoloRow {
    p.(whatsapp_enviado := true)
  }

  /** Marking a row as sent never lowers a flag, changes no other column,
      and changes only the row it names. */
  lemma MarkSentOnlyRaisesFlag(rows: seq<Entry<ProtocoloRow>>, id: nat, i: nat)
    requires i < |rows|
    ensures |UpdateIn(rows, id, MarkSent)| == |rows|
    ensures UpdateIn(rows, id, MarkSent)[i].id == rows[i].id
    ensures rows[i].value.whatsapp_enviado ==> UpdateIn(rows, id, MarkSent)[i].value.whatsapp_enviado
    ensures UpdateIn(rows, id, MarkSent)[i].value.(whatsapp_enviado := false)
         == rows[i].value.(whatsapp_enviado := false)
    ensures UpdateIn(rows, id, MarkSent)[i] != rows[i] ==> rows[i].id == id && !rows[i].value.whatsapp_enviado
  {
    if rows[i].id == id {
      assert UpdateIn(rows, id, MarkSent)[i] == Entry(id, MarkSent(rows[i].value));
    }
  }

  /** The payload fields the gateway sees. */
  lemma PayloadOfFields(p: ProtocoloRow)
    ensures PayloadOf(p).inscricao ==
      (if p.num_inscricao.Some? && p.num_inscricao.value != "" then p.num_inscricao.value else NotApplicable)
    ensures PayloadOf(p).analise ==
      (if p.anos_analise.Some? && p.anos_analise.value != "" then p.anos_analise.value else NotApplicable)
    ensures PayloadOf(p).processo == p.processo && PayloadOf(p).assunto == p.assunto && PayloadOf(p).nome == p.nome
    ensures '.' !in PayloadOf(p).cpf && '-' !in PayloadOf(p).cpf && '-' !in PayloadOf(p).whatsapp
    ensures multiset(PayloadOf(p).cpf) == multiset(p.cpf)['.' := 0]['-' := 0]
    ensures multiset(PayloadOf(p).whatsapp) == multiset(p.telefone)['-' := 0]
  {
    StripCpfCounts(p.cpf);
    RemoveAllCounts(p.telefone, '-');
  }

  /** `sendWhatsApp(protocolo)`: posts the payload; on an ok answer the stored
      row's flag is raised, otherwise the error is logged and swallowed and
      the table is left as it was. */
  method SendWhatsApp(table: Table<ProtocoloRow>, protocolo: Entry<ProtocoloRow>, gateway: Delivery)
    returns (payload: Payload)
    requires table.Valid()
    modifies table
    ensures table.Valid() && table.nextId == old(table.nextId)
    ensures payload == PayloadOf(protocolo.value)
    ensures gateway == Delivered ==> table.rows == UpdateIn(old(table.rows), protocolo.id, MarkSent)
    ensures gateway == Rejected ==> table.rows == old(table.rows)
  {
    payload := PayloadOf(protocolo.value);
    if gateway == Delivered {
      var _ := table.Update(protocolo.id, MarkSent);
    }
  }

  /** `SendWhatsApp(req, res)`: method and session guards, the row lookup by
      `id`, the phone guard, then the notifier; its outcome does not change
      the answer. `sent` is the payload posted, if any. */
  method HandleSendWhatsApp(
    table: Table<ProtocoloRow>, httpMethod: string, session: Option<Session>, id: nat, gateway: Delivery)
    returns (resp: Response<()>, sent: Option<Payload>)
    requires table.Valid()
    modifies table
    ensures table.Valid() && table.nextId == old(table.nextId)
    ensures httpMethod != "POST" ==>
      resp == MethodNotAllowed(httpMethod) && sent.None? && table.rows == old(table.rows)
    ensures httpMethod == "POST" && session.None? ==>
      resp == Response(401, "Usuário não está autenticado", None) && sent.None? && table.rows == old(table.rows)
    ensures httpMethod == "POST" && session.Some? && old(table.Find(id)).None? ==>
      resp == Response(500, "Ocorreu um erro.", None) && sent.None? && table.rows == old(table.rows)
    ensures httpMethod == "POST" && session.Some? && old(table.Find(id)).Some? ==>
      var p := old(table.Find(id)).value;
      if p.telefone == "" then
        resp == Response(400, "O registro não contém telefone.", None) && sent.None?
        && table.rows == old(table.rows)
      else
        resp == Response(200, "Notificação enviada com sucesso.", None) && sent == Some(PayloadOf(p))
        && table.rows == (if gateway == Delivered then UpdateIn(old(table.rows), id, MarkSent) else old(table.rows))
  {
    if httpMethod != "POST" {
      return MethodNotAllowed(httpMethod), None;
    }
    if session.None? {
      return Response(401, "Usuário não está autenticado", None), None;
    }
    var found := table.Find(id);
    if found.None? {
      // `protocolo.telefone` on a null row throws; the outer catch answers 500.
      return Response(500, "Ocorreu um erro.", None), None;
    }
    var protocolo := found.value;
    if protocolo.telefone == "" {
      return Response(400, "O registro não contém telefone.", None), None;
    }
    var payload := SendWhatsApp(table, Entry(id, protocolo), gateway);
    return Response(200, "Notificação enviada com sucesso.", None), Some(payload);
  }
}
