/** The Capa create handler: the chosen subject, or the free text when the
    choice is "Outro", and the other text fields are stored upper-cased;
    the optional `observacao` and `volume` default to empty text. */
module CapasNew {
  import opened Js
  import opened Http
  import opened Store
  import opened Schema

  /** The fields of the request body the handler reads; `distribuicao` is a
      date and is not modelled. */
  datatype CapaRequest = CapaRequest(
    num_protocolo: JsValue,
    requerente: JsValue,
    assunto: JsValue,
    outro_assunto: JsValue,
    volume: JsValue,
    observacao: JsValue)

  /** The stored subject: the free text exactly when the choice is the
      string "Outro" (compared strictly, so "OUTRO" or "outro" is kept as a
      subject of its own). */
  function CapaSubject(body: CapaRequest): (r: string)
    ensures IsUpper(r)
    ensures body.assunto == Str("Outro") ==> r == ToUpper(StringOf(body.outro_assunto))
    ensures body.assunto != Str("Outro") ==> r == ToUpper(StringOf(body.assunto))
  {
    if body.assunto == Str("Outro") then UpperString(body.outro_assunto) else UpperString(body.assunto)
  }

  /** The `data` of `capa.create`. */
  function NewCapaRow(body: CapaRequest, creator: nat): (r: CapaRow)
    ensures IsUpper(r.num_protocolo) && IsUpper(r.assunto) && IsUpper(r.requerente)
    ensures IsUpper(r.observacao) && IsUpper(r.volume)
    ensures r.assunto == CapaSubject(body)
    ensures r.observacao == "" <==> !Truthy(body.observacao)
    ensures r.volume == "" <==> !Truthy(body.volume)
    ensures r.creator == creator && !r.deleted
  {
    CapaRow(
      num_protocolo := UpperString(body.num_protocolo),
      assunto := CapaSubject(body),
      requerente := UpperString(body.requerente),
      observacao := UpperOrEmpty(body.observacao),
      volume := UpperOrEmpty(body.volume),
      creator := creator,
      deleted := false)
  }

  /** The text fields are the request's text upper-cased; `observacao` and
      `volume` are when truthy, and are "" otherwise. */
  lemma NewCapaRowStoresUpperCasedText(body: CapaRequest, creator: nat)
    ensures NewCapaRow(body, creator).num_protocolo == ToUpper(StringOf(body.num_protocolo))
    ensures NewCapaRow(body, creator).requerente == ToUpper(StringOf(body.requerente))
    ensures Truthy(body.observacao) ==> NewCapaRow(body, creator).observacao == ToUpper(StringOf(body.observacao))
    ensures Truthy(body.volume) ==> NewCapaRow(body, creator).volume == ToUpper(StringOf(body.volume))
  {}

  /** With "Outro" chosen and no free text, the subject stored is the text
      "UNDEFINED". */
  lemma OutroWithoutTextStoresUNDEFINED(body: CapaRequest, creator: nat)
    requires body.assunto == Str("Outro") && body.outro_assunto == Undefined
    ensures NewCapaRow(body, creator).assunto == "UNDEFINED"
  {
    UndefinedIsStoredAsText();
  }

  /** `NewProtocolo(req, res)` of the Capa API. */
  method NewCapa(table: Table<CapaRow>, httpMethod: string, session: Option<Session>, body: CapaRequest)
    returns (resp: Response<Entry<CapaRow>>)
    requires table.Valid()
    modifies table
    ensures table.Valid()
    ensures httpMethod != "POST" ==>
      resp == MethodNotAllowed(httpMethod) && table.rows == old(table.rows)
    ensures httpMethod == "POST" && session.None? ==>
      resp == Response(401, "Usuário não está autenticado.", None) && table.rows == old(table.rows)
    ensures httpMethod == "POST" && session.Some? ==>
      var created := Entry(old(table.nextId), NewCapaRow(body, session.value.userId));
      resp == Response(200, "Capa registrada com sucesso.", Some(created))
      && table.rows == old(table.rows) + [created]
  {
    if httpMethod != "POST" {
      return MethodNotAllowed(httpMethod);
    }
    if session.None? {
      return Response(401, "Usuário não está autenticado.", None);
    }
    var capa := table.Create(NewCapaRow(body, session.value.userId));
    resp := Response(200, "Capa registrada com sucesso.", Some(capa));
  }
}
