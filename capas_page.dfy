/** The "Nova Capa" page: the zod schema that validates the form, the
    submit handler's state changes, and the server-side props. The
    schema's refinement is written inverted; it is modelled as written and
    corrected, and the submit handler takes either. */
module CapasPage {
  import opened Js
  import opened Http
  import opened Store
  import opened Schema
  import opened CapasNew

  /** The form state. `handleChange` only ever stores input text, and the
      initial state has every field, so every field is text. */
  datatype CapaForm = CapaForm(
    num_protocolo: string,
    distribuicao: string,
    volume: string,
    assunto: string,
    outro_assunto: string,
    observacao: string)

  const InitialCapaForm := CapaForm("", "", "", "", "", "")

  /** The refinement's message. */
  const DescribeSubject := "É necessário descrever o assunto."

  /** zod's message for a failed `.datetime()` check. */
  const InvalidDatetime := "Invalid datetime"

  /** The refinement as written: it holds only when "Outro" is chosen and
      the description is blank. */
  predicate RefineAsWritten(form: CapaForm) {
    form.assunto == "Outro" && |Trim(form.outro_assunto)| == 0
  }

  /** The refinement as evidently intended: "Outro" needs a description. */
  predicate RefineIntended(form: CapaForm) {
    !(form.assunto == "Outro" && |Trim(form.outro_assunto)| == 0)
  }

  datatype Refinement = AsWritten | Intended

  predicate Refine(which: Refinement, form: CapaForm) {
    match which
    case AsWritten => RefineAsWritten(form)
    case Intended => RefineIntended(form)
  }

  /** The written refinement accepts exactly the forms with "Outro" chosen
      and nothing but whitespace as description. */
  lemma AsWrittenAcceptsOnlyUndescribedOutro(form: CapaForm)
    ensures RefineAsWritten(form) <==> form.assunto == "Outro" && AllWhitespace(form.outro_assunto)
  {
    TrimEmptyIffBlank(form.outro_assunto);
  }

  /** The corrected refinement refuses exactly the forms with "Outro" chosen
      and nothing but whitespace as description. */
  lemma IntendedRequiresDescriptionForOutro(form: CapaForm)
    ensures RefineIntended(form) <==> form.assunto != "Outro" || !AllWhitespace(form.outro_assunto)
  {
    TrimEmptyIffBlank(form.outro_assunto);
  }

  datatype ParseResult = Parsed(data: CapaForm) | Failed(messages: seq<string>)

  /** `capaFormSchema.safeParse(form)` for a form of text fields. A failed
      `.datetime()` check records its issue without aborting, so the
      refinement still runs and its issue follows. `distribuicaoIsDatetime`
      says whether `distribuicao` is an ISO 8601 date-time. */
  function SafeParse(form: CapaForm, distribuicaoIsDatetime: bool, which: Refinement): (r: ParseResult)
    ensures r.Parsed? <==> distribuicaoIsDatetime && Refine(which, form)
    ensures r.Parsed? ==> r.data == form
    ensures r.Failed? ==>
      && |r.messages| == (if distribuicaoIsDatetime then 0 else 1) + (if Refine(which, form) then 0 else 1)
      && (InvalidDatetime in r.messages <==> !distribuicaoIsDatetime)
      && (DescribeSubject in r.messages <==> !Refine(which, form))
      && (!distribuicaoIsDatetime ==> r.messages[0] == InvalidDatetime)
  {
    var issues := (if distribuicaoIsDatetime then [] else [InvalidDatetime])
                + (if Refine(which, form) then [] else [DescribeSubject]);
    if issues == [] then Parsed(form) else Failed(issues)
  }

  /** The banner text for failed validation: the messages joined by ", ",
      and a final ".". */
  function IssuesMessage(messages: seq<string>): string {
    Join(messages, ", ") + "."
  }

  /** With a valid date, a refinement failure is reported alone, and its
      message, which already ends in ".", gets a second one. */
  lemma RefinementFailureMessage(form: CapaForm, which: Refinement)
    requires !Refine(which, form)
    ensures SafeParse(form, true, which) == Failed([DescribeSubject])
    ensures IssuesMessage(SafeParse(form, true, which).messages) == DescribeSubject + "."
  {
    assert [] + [DescribeSubject] == [DescribeSubject];
  }

  /** `JSON.stringify(result.data)` as the handler reads it: the schema has
      no `requerente`, so none is sent. */
  function RequestOf(data: CapaForm): (r: CapaRequest)
    ensures r.requerente == Undefined
    ensures r.assunto == Str(data.assunto) && r.outro_assunto == Str(data.outro_assunto)
    ensures r.num_protocolo == Str(data.num_protocolo)
    ensures r.volume == Str(data.volume) && r.observacao == Str(data.observacao)
  {
    CapaRequest(
      num_protocolo := Str(data.num_protocolo),
      requerente := Undefined,
      assunto := Str(data.assunto),
      outro_assunto := Str(data.outro_assunto),
      volume := Str(data.volume),
      observacao := Str(data.observacao))
  }

  /** Every Capa created from this page stores "UNDEFINED" as `requerente`. */
  lemma PageStoresRequerenteAsUNDEFINED(data: CapaForm, creator: nat)
    ensures NewCapaRow(RequestOf(data), creator).requerente == "UNDEFINED"
  {
    UndefinedIsStoredAsText();
  }

  /** As written, every form with a subject picked from the list is refused,
      whatever its date and description. */
  lemma AsWrittenRefusesListedSubject(form: CapaForm, distribuicaoIsDatetime: bool)
    requires form.assunto != "Outro"
    ensures SafeParse(form, distribuicaoIsDatetime, AsWritten).Failed?
    ensures DescribeSubject in SafeParse(form, distribuicaoIsDatetime, AsWritten).messages
  {}

  /** As written, "Outro" without a description passes, and the Capa is
      stored with a blank subject. */
  lemma AsWrittenStoresBlankSubject(form: CapaForm, creator: nat)
    requires form.assunto == "Outro" && AllWhitespace(form.outro_assunto)
    ensures SafeParse(form, true, AsWritten) == Parsed(form)
    ensures AllWhitespace(NewCapaRow(RequestOf(form), creator).assunto)
  {
    AsWrittenAcceptsOnlyUndescribedOutro(form);
    ToUpperBlank(form.outro_assunto);
  }

  /** Corrected, a listed subject with a valid date passes, and a Capa made
      from "Outro" always stores a subject that is not blank. */
  lemma IntendedStoresDescribedSubject(form: CapaForm, creator: nat)
    ensures form.assunto != "Outro" ==> SafeParse(form, true, Intended) == Parsed(form)
    ensures SafeParse(form, true, Intended).Parsed? && form.assunto == "Outro" ==>
      !AllWhitespace(NewCapaRow(RequestOf(form), creator).assunto)
  {
    IntendedRequiresDescriptionForOutro(form);
    ToUpperBlank(form.outro_assunto);
  }

  /** The page component's state. */
  class CapaCreatePage {
    var form: CapaForm
    var notification: Notification
    var isLoading: bool

    constructor ()
      ensures form == InitialCapaForm && notification == NotificationInitial && !isLoading
    {
      form := InitialCapaForm;
      notification := NotificationInitial;
      isLoading := false;
    }

    /** `handleSubmit`; `which` is `AsWritten` for the page as it is and
        `Intended` for the corrected schema. `reply` is the answer to the
        POST, if one is sent; `posted` is the body sent. */
    method HandleSubmit(which: Refinement, distribuicaoIsDatetime: bool, reply: Reply)
      returns (posted: Option<CapaRequest>)
      modifies this
      ensures !isLoading
      ensures SafeParse(old(form), distribuicaoIsDatetime, which).Failed? ==>
        var messages := SafeParse(old(form), distribuicaoIsDatetime, which).messages;
        posted.None? && notification == Notification(IssuesMessage(messages), Failure) && form == old(form)
      ensures SafeParse(old(form), distribuicaoIsDatetime, which).Parsed? ==>
        && posted == Some(RequestOf(old(form)))
        && if Ok(reply) then notification == Notification(reply.message, Success) && form == InitialCapaForm
           else notification == Notification(reply.message, Failure) && form == old(form)
      ensures which == AsWritten && distribuicaoIsDatetime && old(form).assunto != "Outro" ==>
        posted.None? && notification == Notification(DescribeSubject + ".", Failure) && form == old(form)
    {
      var result := SafeParse(form, distribuicaoIsDatetime, which);
      if which == AsWritten && distribuicaoIsDatetime && form.assunto != "Outro" {
        AsWrittenRefusesListedSubject(form, distribuicaoIsDatetime);
        RefinementFailureMessage(form, which);
      }
      posted := Settle(result, reply);
    }

    /** The rest of `handleSubmit`, once the form has been parsed. */
    method Settle(result: ParseResult, reply: Reply) returns (posted: Option<CapaRequest>)
      modifies this
      requires result.Parsed? ==> result.data == form
      ensures !isLoading
      ensures result.Failed? ==>
        posted.None? && notification == Notification(IssuesMessage(result.messages), Failure) && form == old(form)
      ensures result.Parsed? ==>
        && posted == Some(RequestOf(result.data))
        && if Ok(reply) then notification == Notification(reply.message, Success) && form == InitialCapaForm
           else notification == Notification(reply.message, Failure) && form == old(form)
    {
      if result.Parsed? {
        notification := NotificationInitial;
        isLoading := true;
        posted := Some(RequestOf(result.data));
        if !Ok(reply) {
          // `throw new Error(error.message)`, caught below.
          notification := Notification(reply.message, Failure);
          isLoading := false;
          return;
        }
        notification := Notification(reply.message, Success);
        form := InitialCapaForm;
        isLoading := false;
      } else {
        posted := None;
        notification := Notification(IssuesMessage(result.messages), Failure);
        isLoading := false;
      }
    }
  }

  /** `prisma.capa.findMany({ where: { deleted_at: null } })`, in table order. */
  function LiveCapas(rows: seq<Entry<CapaRow>>): (r: seq<Entry<CapaRow>>)
    ensures forall e :: e in r <==> e in rows && !e.value.deleted
    ensures |r| <= |rows|
    decreases |rows|
  {
    if rows == [] then []
    else if rows[0].value.deleted then LiveCapas(rows[1..])
    else [rows[0]] + LiveCapas(rows[1..])
  }

  /** `getServerSideProps`: without a session, a redirect to the login page;
      otherwise the Capa rows that are not deleted, passed as the page's
      `assuntos`. */
  function CapaPageProps(session: Option<Session>, rows: seq<Entry<CapaRow>>): (r: PageResult<seq<Entry<CapaRow>>>)
    ensures r.Redirect? <==> session.None?
    ensures r.Redirect? ==> r.destination == "/login"
    ensures r.Props? ==> forall e :: e in r.props <==> e in rows && !e.value.deleted
    ensures !r.Thrown?
  {
    if session.None? then Redirect("/login") else Props(LiveCapas(rows))
  }
}
