/** The Assunto create handler: the name is upper-cased and trimmed, and a
    name already taken by any row, deleted rows included, is refused. */
module AssuntosNew {
  import opened Js
  import opened Http
  import opened Store
  import opened Schema

  /** `name.toUpperCase().trim()`: upper-case text with no whitespace at
      either end, empty exactly when the name is blank. */
  function NormaliseName(name: string): (r: string)
    ensures IsUpper(r) && |r| <= |name|
    ensures r == [] || (!IsWhitespace(r[0]) && !IsWhitespace(r[|r| - 1]))
    ensures r == [] <==> AllWhitespace(name)
  {
    var u := ToUpper(name);
    ToUpperIsUpper(name);
    TrimKeepsUpper(u);
    ToUpperBlank(name);
    TrimEmptyIffBlank(u);
    Trim(u)
  }

  /** The stored name is the submitted text, upper-cased, with only the
      surrounding whitespace taken away. */
  lemma NormaliseKeepsText(name: string)
    ensures var u, k, r := ToUpper(name), LeadingWhitespace(ToUpper(name)), NormaliseName(name);
      && k + |r| <= |u| && u[k..k + |r|] == r
      && AllWhitespace(u[..k]) && AllWhitespace(u[k + |r|..])
  {
    TrimSplits(ToUpper(name));
  }

  /** Names that differ only in letter case or surrounding whitespace are
      the same name. */
  lemma NormaliseIgnoresCaseAndPadding(w1: string, x: string, w2: string)
    requires AllWhitespace(w1) && AllWhitespace(w2)
    ensures NormaliseName(w1 + x + w2) == NormaliseName(x)
    ensures NormaliseName(ToUpper(x)) == NormaliseName(x)
  {
    ToUpperConcat(w1 + x, w2);
    ToUpperConcat(w1, x);
    ToUpperKeepsWhitespace(w1);
    ToUpperKeepsWhitespace(w2);
    TrimIgnoresPadding(w1, ToUpper(x), w2);
    ToUpperIsUpper(x);
  }

  /** A stored name normalises to itself. */
  lemma NormaliseIdempotent(name: string)
    ensures NormaliseName(NormaliseName(name)) == NormaliseName(name)
  {
    var r := NormaliseName(name);
    if r != [] {
      TrimNoPadding(r);
    }
  }

  /** `findFirst({ where: { name } })` over every row, deleted or not. */
  function FindByName(rows: seq<Entry<AssuntoRow>>, name: string): (r: Option<Entry<AssuntoRow>>)
    ensures r.Some? ==> r.value in rows && r.value.value.name == name
    ensures r.None? <==> forall e :: e in rows ==> e.value.name != name
    decreases |rows|
  {
    if rows == [] then None
    else if rows[0].value.name == name then Some(rows[0])
    else FindByName(rows[1..], name)
  }

  /** No two rows share a name. */
  ghost predicate NamesDistinct(rows: seq<Entry<AssuntoRow>>) {
    forall i, j :: 0 <= i < j < |rows| ==> rows[i].value.name != rows[j].value.name
  }

  /** Appending a row whose name no row has keeps the names distinct. */
  lemma AppendFreshName(rows: seq<Entry<AssuntoRow>>, e: Entry<AssuntoRow>)
    requires NamesDistinct(rows) && FindByName(rows, e.value.name).None?
    ensures NamesDistinct(rows + [e])
  {
    forall i, j | 0 <= i < j < |rows| + 1
      ensures (rows + [e])[i].value.name != (rows + [e])[j].value.name
    {
      if j == |rows| {
        assert rows[i] in rows;
      }
    }
  }

  /** `NewProtocolo(req, res)` of the Assunto API. A `name` that is not a
      string makes `toUpperCase` throw, which answers 500. */
  method NewAssunto(table: Table<AssuntoRow>, httpMethod: string, session: Option<Session>, name: JsValue)
    returns (resp: Response<Entry<AssuntoRow>>)
    requires table.Valid()
    modifies table
    ensures table.Valid()
    ensures NamesDistinct(old(table.rows)) ==> NamesDistinct(table.rows)
    ensures resp.status != 200 ==> table.rows == old(table.rows) && table.nextId == old(table.nextId)
    ensures httpMethod != "POST" ==> resp == MethodNotAllowed(httpMethod)
    ensures httpMethod == "POST" && session.None? ==>
      resp == Response(401, "Usuário não está autenticado.", None)
    ensures httpMethod == "POST" && session.Some? && !name.Str? ==>
      resp == Response(500, "Ocorreu um erro na criação do assunto.", None)
    ensures httpMethod == "POST" && session.Some? && name.Str? ==>
      var n := NormaliseName(name.s);
      if FindByName(old(table.rows), n).Some? then
        resp == Response(400, "Um assunto com o mesmo nome já existe.", None)
      else
        var created := Entry(old(table.nextId), AssuntoRow(n, session.value.userId, false));
        resp == Response(200, "Assunto registrado com sucesso.", Some(created))
        && table.rows == old(table.rows) + [created]
  {
    if httpMethod != "POST" {
      return MethodNotAllowed(httpMethod);
    }
    if session.None? {
      return Response(401, "Usuário não está autenticado.", None);
    }
    if !name.Str? {
      return Response(500, "Ocorreu um erro na criação do assunto.", None);
    }
    var normalised := NormaliseName(name.s);
    if FindByName(table.rows, normalised).Some? {
      return Response(400, "Um assunto com o mesmo nome já existe.", None);
    }
    ghost var before := table.rows;
    var assunto := table.Create(AssuntoRow(normalised, session.value.userId, false));
    if NamesDistinct(before) {
      AppendFreshName(before, assunto);
    }
    resp := Response(200, "Assunto registrado com sucesso.", Some(assunto));
  }

  /** Registering a name, then the same name in another letter case and with
      padding, is refused the second time. */
  method RegisterTwice(table: Table<AssuntoRow>, session: Session, w1: string, x: string, w2: string)
    returns (first: Response<Entry<AssuntoRow>>, second: Response<Entry<AssuntoRow>>)
    requires table.Valid() && AllWhitespace(w1) && AllWhitespace(w2)
    modifies table
    ensures first.status == 200 || first.status == 400
    ensures second == Response(400, "Um assunto com o mesmo nome já existe.", None)
  {
    first := NewAssunto(table, "POST", Some(session), Str(x));
    NormaliseIgnoresCaseAndPadding(w1, x, w2);
    NormaliseIgnoresCaseAndPadding(w1, ToUpper(x), w2);
    if first.status == 200 {
      assert first.data.value in table.rows;
    }
    second := NewAssunto(table, "POST", Some(session), Str(w1 + ToUpper(x) + w2));
  }
}
