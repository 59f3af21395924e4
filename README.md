# SGP record-creation core, modelled in Dafny

SGP (Sistema Gerenciador de Protocolos) is a Next.js application for a city
office. Its staff use it to register three kinds of record:

- Protocolos: citizens' requests, each with a generated process number;
- Assuntos: the subjects a request can have;
- Capas: file covers.

It can also notify the citizen of a Protocolo through a WhatsApp gateway.
This project models the record-creating part of the application:

- the API handlers that create these records;
- the WhatsApp notifier, in its current and older versions;
- the two client pages that create Capas and Users.

The model is written in terms of the application itself:

- a request is a method call;
- the session is an optional `Session`, whose user id and role come from the sign-in;
- each database table is a `Store.Table`, an in-memory class. It holds its rows in id order and has the operations the handlers use:
  - `findUnique` by id;
  - `findMany`, ordered by id descending and taking one row;
  - `create`;
  - `update` by id.
- the gateway's answer is a `Delivery` parameter, `Delivered` when the answer is ok and `Rejected` otherwise;
- the server clock's year and month are parameters;
- a page's `fetch` answer is a `Reply` parameter.

The JavaScript semantics the handlers rely on are written out in `Js`:

- truthiness;
- `String(x)` of a request field;
- `toUpperCase`;
- `trim`;
- `+s` (`Number`);
- `split`, `join`, `replace` and `replaceAll` with a one-character pattern.

A request field is a `JsValue`, so an absent field is `Undefined`. It is not
treated as an error: `String(undefined).toUpperCase()` stores the text
"UNDEFINED", and the model keeps this.

## Modules

- `Js`: the JavaScript semantics listed above.
- `Http`:
  - roles, the session and the JSON answer;
  - the 405 answer;
  - the gateway outcome, a page's banner notification and a page's server-side result.
- `Store`: the generic table.
- `Schema`: the rows written by the handlers.
- `Processo` (`pages/api/protocolos/new.ts`): the process-number generator. `processo` is `month/counter/yy`. The counter restarts at 1 only when the newest row's year field is *smaller* than the current two-digit year.
- `Whatsapp`: the payload posted to the gateway.
  - The current payload defaults a falsy field to "Não se aplica" and strips every "." and "-" with `replaceAll`.
  - The older payload defaults only a null field, with `??`, and strips only the first "." and the first "-", with `replace`.
- `ProtocolosSendWhatsApp` (`pages/api/protocolos/send-whatsapp.ts`): `sendWhatsApp` raises the `whatsapp_enviado` flag only on an ok answer. It also holds the `SendWhatsApp` handler.
- `ProtocolosNew` (`pages/api/protocolos/new.ts`): the current create handler. It does not await the notifier.
- `ProtocoloNew` (`pages/api/protocolo/new.ts`): the older create handler. It awaits the notification inline.
- `ProtocoloSendWhatsApp` (`pages/api/protocolo/send-whatsapp.ts`): the older notifier handler.
- `AssuntosNew` (`pages/api/assuntos/new.ts`): names are upper-cased and trimmed. A name already held by any row is refused, and that includes deleted rows.
- `CapasNew` (`pages/api/capas/new.ts`): the "Outro" substitution, and the empty-text defaults.
- `CapasPage` (`pages/capas/new.tsx`):
  - the zod schema, with its refinement as written and as corrected;
  - the submit handler;
  - the server-side props.
- `UsersPage` (`pages/users/new.tsx`):
  - the completeness check;
  - the role options;
  - the submit handler;
  - the server-side props.

## Behaviours of the code worth knowing (the model follows the code)

- **When the counter restarts.** The code restarts the counter only when the stored year is *smaller* than the current one (`pages/api/protocolos/new.ts:55`). Its comment for the other branch assumes that otherwise "we're still in the same year" (line 59), but that is not what the comparison checks. So a newest row with a later year keeps the count going (`Processo.CounterContinuesAfterLaterStoredYear`). The same holds across the century: "99" to "00" (`Processo.CenturyRolloverKeepsCounting`). A `processo` without a third field reads as NaN and keeps it going too (`Processo.MissingYearFieldKeepsCounting`).
- **Which rows an Assunto name must be unique among.** The duplicate check, `findFirst` on the name, has no `deleted_at` filter (`pages/api/assuntos/new.ts:30-34`). So the name of a deleted Assunto cannot be reused.
- **Which rows the Capa page loads.** The Capa page's server-side props load the Capa rows that are not deleted, and not the Assuntos. It passes them to the page under the name `assuntos` (`pages/capas/new.tsx:395-402`).

Other behaviours of the code that the model states:

- A Protocolo created without a phone stores the text "undefined". That text is non-empty, so the notifier handler's phone guard accepts the row (`ProtocolosNew.AbsentPhoneStoredAsUndefined`).
- The Capa page's schema has no `requerente`, so every Capa created from the page stores "UNDEFINED" as its `requerente` (`CapasPage.PageStoresRequerenteAsUNDEFINED`).
- The older notifier's `replace` leaves the second "." of a CPF written as "ddd.ddd.ddd-dd" (`Whatsapp.FormattedCpfKeepsDotInOlderPayload`). The current notifier strips every separator (`Whatsapp.FormattedCpfLosesSeparatorsInCurrentPayload`).

## Model

| member | source | states |
|---|---|---|
| Http.MethodNotAllowed | pages/api/protocolos/new.ts:21-25 | every handler answers 405, with no data, to a method other than POST |
| Js.UpperString | pages/api/protocolos/new.ts:71-76 | `String(x).toUpperCase()` is text that upper-casing leaves unchanged |
| Js.UpperOrEmpty | pages/api/protocolos/new.ts:77-78 | `x ? String(x).toUpperCase() : ""` is upper-case, and empty exactly when `x` is falsy |
| Js.UndefinedIsStoredAsText | pages/api/protocolo/new.ts:40-45 | an absent field is stored as the text "UNDEFINED" |
| Js.TrimIgnoresPadding | pages/api/assuntos/new.ts:32 | `trim` gives the same text whatever whitespace pads it on either side |
| Js.TrimEmptyIffBlank | pages/users/new.tsx:38 | `s.trim().length === 0` exactly when `s` is all whitespace |
| Js.TrimSplits | pages/api/assuntos/new.ts:32 | a text is its leading whitespace, then its `trim()`, then whitespace |
| Js.ParseIntRoundTrip | pages/api/protocolos/new.ts:55-67 | `+` reads back every integer written into `processo` |
| Js.SplitJoinRoundTrip | pages/api/protocolos/new.ts:55 | joining the pieces of `split` with the separator gives the text back |
| Js.RemoveAllCounts | pages/api/protocolos/send-whatsapp.ts:61-62 | `replaceAll(c, "")` removes every `c` and keeps every other character, counted with multiplicity |
| Js.RemoveFirstCounts | pages/api/protocolo/send-whatsapp.ts:42-43 | `replace(c, "")` removes exactly one occurrence of `c`, if any, and keeps the rest |
| Store.FindIn | pages/api/protocolos/send-whatsapp.ts:26 | `findUnique` returns a row stored under that id, and none only when no row has it |
| Store.FindAfterUpdate | pages/api/protocolos/send-whatsapp.ts:87-94 | reading a row back after `update` gives the updated row, and a missing id stays missing |
| Store.UpdateInKeepsOthers | pages/api/protocolos/send-whatsapp.ts:87-94 | `update` by id leaves every row with another id in place |
| Store.UpdateNewest | pages/api/protocolo/new.ts:81-88 | updating the row just created changes that last row only |
| Store.Table.Newest | pages/api/protocolos/new.ts:41-46 | `findMany` ordered by id descending and taking 1 returns the row with the largest id, and nothing only for an empty table |
| Store.Table.Create | pages/api/protocolos/new.ts:69-88 | `create` appends the row under the next id and keeps the ids increasing |
| Store.Table.Update | pages/api/protocolos/send-whatsapp.ts:87-94 | `update` applies the change to the row with that id only; it reports whether the id existed, and a missing id changes nothing |
| Processo.NextNumProcesso | pages/api/protocolos/new.ts:52-65 | the counter is 1 for an empty table, and otherwise 1 or the newest row's counter plus one |
| Processo.YearSuffixDigits | pages/api/protocolos/new.ts:49 | the year suffix is digits only, with no "/" |
| Processo.YearSuffixValue | pages/api/protocolos/new.ts:49 | `${year}`.slice(2) of a four-digit year is its last two digits, and reads back as `year % 100` |
| Processo.YearSuffix | pages/api/protocolos/new.ts:49 | no contract of its own; `Processo.YearSuffixDigits` and `Processo.YearSuffixValue` state that it is the last two digits of a four-digit year and reads back as `year % 100` |
| Processo.FormatProcesso | pages/api/protocolos/new.ts:67 | no contract of its own; `Processo.ProcessoFields` and `Processo.ProcessoRoundTrip` state that it splits back into month, counter and year suffix |
| Processo.StoredYear | pages/api/protocolos/new.ts:55 | no contract of its own; `Processo.ProcessoRoundTrip` states it reads a generated `processo`'s year as `year % 100`, and `Processo.MissingYearFieldKeepsCounting` that a missing field is NaN |
| Processo.ProcessoFields | pages/api/protocolos/new.ts:67 | `processo` splits on "/" into exactly month, counter and year suffix |
| Processo.ProcessoRoundTrip | pages/api/protocolos/new.ts:55-67 | the month, counter and year read back out of a generated `processo` are those written into it |
| Processo.CounterIncrementsWithinYear | pages/api/protocolos/new.ts:58-61 | after a row of the current year, the counter is that row's plus one |
| Processo.CounterRestartsInLaterYear | pages/api/protocolos/new.ts:55-57 | after a row of an earlier year in the same century, the counter restarts at 1 |
| Processo.CounterContinuesAfterLaterStoredYear | pages/api/protocolos/new.ts:55-61 | a newest row with a later or equal year suffix does not restart the counter |
| Processo.DecemberThenJanuary | pages/api/protocolos/new.ts:48-57 | a December row followed by a January request of the next year gives counter 1 |
| Processo.CenturyRolloverKeepsCounting | pages/api/protocolos/new.ts:49-61 | from 2099 to 2100 the counter goes on instead of restarting |
| Processo.NextFromStoredYear | pages/api/protocolos/new.ts:54-61 | once the newest row's year field reads as a number, the counter restarts at 1 exactly when that number is below the current two-digit year, and otherwise is the newest counter plus one |
| Processo.NextNumProcessoRule | pages/api/protocolos/new.ts:54-61 | for a four-digit year and any newest row: the counter is 1 exactly when the row's year field reads as a number below the current two-digit year, and otherwise the newest counter plus one; a year field reading as NaN (missing or not a number) never restarts it |
| Processo.MissingYearFieldKeepsCounting | pages/api/protocolos/new.ts:55 | a `processo` with fewer than three "/"-separated fields reads as NaN, so the counter continues |
| Processo.ProcessoWithoutSeparatorKeepsCounting | pages/api/protocolos/new.ts:55 | in particular a `processo` with no "/" at all keeps the counter going |
| Whatsapp.OrIfFalsy | pages/api/protocolos/send-whatsapp.ts:52-59 | the column's text is sent unless it is null or empty, in which case "Não se aplica" is sent |
| Whatsapp.OrIfNullish | pages/api/protocolo/send-whatsapp.ts:37-40 | `??` sends the column's text, empty or not, and "Não se aplica" only for null |
| Whatsapp.DefaultsDifferOnlyOnEmpty | pages/api/protocolo/send-whatsapp.ts:37-40 | the two defaults differ exactly on the empty string |
| Whatsapp.StripCpf | pages/api/protocolos/send-whatsapp.ts:61 | the CPF sent has no "." and no "-" |
| Whatsapp.StripCpfCounts | pages/api/protocolos/send-whatsapp.ts:61 | the CPF sent keeps every other character of the stored CPF |
| Whatsapp.StripCpfFirstCounts | pages/api/protocolo/send-whatsapp.ts:42 | the older CPF loses at most one "." and one "-", and keeps everything else |
| Whatsapp.StripCpfFirst | pages/api/protocolo/send-whatsapp.ts:42 | no contract of its own; `Whatsapp.StripCpfFirstCounts` states it removes at most one "." and one "-", and `Whatsapp.FormattedCpfKeepsDotInOlderPayload` that a written CPF keeps its second dot |
| Whatsapp.PayloadStrippingAll | pages/api/protocolos/send-whatsapp.ts:51-64 | the current payload defaults falsy `inscricao`/`analise` to "Não se aplica"; its CPF is the CPF minus every "." and "-", and its phone the phone minus every "-" (as multisets, with none left); it copies the process, subject and name |
| Whatsapp.PayloadStrippingFirst | pages/api/protocolo/send-whatsapp.ts:36-45 | the older payload defaults only null `inscricao`/`analise` to "Não se aplica"; its CPF is the CPF minus one "." and one "-" (when present), and its phone the phone minus one "-"; a CPF without "." loses only its first "-"; it copies the process, subject and name |
| Whatsapp.FormattedCpfKeepsDotInOlderPayload | pages/api/protocolo/send-whatsapp.ts:42 | "ddd.ddd.ddd-dd" is sent as "dddddd.ddddd", second dot kept |
| Whatsapp.FormattedCpfLosesSeparatorsInCurrentPayload | pages/api/protocolos/send-whatsapp.ts:61 | "ddd.ddd.ddd-dd" is sent as its eleven digits |
| Whatsapp.PayloadsAgreeOnSimpleInput | pages/api/protocolo/send-whatsapp.ts:36-45 | with at most one of each separator and no empty defaulted column, both payloads are equal |
| ProtocolosSendWhatsApp.MarkSentOnlyRaisesFlag | pages/api/protocolos/send-whatsapp.ts:87-94 | marking as sent raises the flag of the named row only and changes no other column |
| ProtocolosSendWhatsApp.PayloadOfFields | pages/api/protocolos/send-whatsapp.ts:51-64 | the payload of a row: defaulted fields, copied fields, and CPF and phone with exactly the separators removed |
| ProtocolosSendWhatsApp.PayloadOf | pages/api/protocolos/send-whatsapp.ts:51-64 | no contract of its own; its fields are stated by `ProtocolosSendWhatsApp.PayloadOfFields` |
| ProtocolosSendWhatsApp.MarkSent | pages/api/protocolos/send-whatsapp.ts:87-94 | no contract of its own; `ProtocolosSendWhatsApp.MarkSentOnlyRaisesFlag` states that only the named row's flag changes, and only to true |
| ProtocolosSendWhatsApp.SendWhatsApp | pages/api/protocolos/send-whatsapp.ts:49-102 | posts the row's payload; the flag is raised on an ok answer, otherwise the table is unchanged |
| ProtocolosSendWhatsApp.HandleSendWhatsApp | pages/api/protocolos/send-whatsapp.ts:9-47 | 405; 401 without a session; 500 for an unknown id; 400 for an empty phone; otherwise 200, the payload posted, and the flag raised only if delivered |
| ProtocolosNew.NewRow | pages/api/protocolos/new.ts:69-88 | the stored row is upper-cased; `cpf`/`cnpj` are empty exactly when falsy; `telefone` is `String(telefone)`; a notification is requested iff `enviar_whatsapp` and `telefone` are truthy; the row is not yet marked as sent |
| ProtocolosNew.NewRowStoresUpperCasedText | pages/api/protocolos/new.ts:71-78 | `num_inscricao`, `anos_analise`, `assunto` and `nome` are the request's text upper-cased (an absent one as "UNDEFINED"); `cpf` and `cnpj` are too when truthy |
| ProtocolosNew.RequestedNotificationHasPhone | pages/api/protocolos/new.ts:79-80 | a row that requests a notification has a non-empty phone |
| ProtocolosNew.AbsentPhoneStoredAsUndefined | pages/api/protocolos/new.ts:79-80 | without a phone, "undefined" is stored and no notification is requested |
| ProtocolosNew.NewProtocolo | pages/api/protocolos/new.ts:16-111 | 405; 401 without a session and no write; otherwise one row appended, numbered from the newest row and the clock; the 200 answer carries the row as created; a payload is posted exactly when a notification is requested; the flag is raised only if delivered |
| ProtocolosNew.NewestRow | pages/api/protocolos/new.ts:41-46 | no contract of its own; the row it gives is `Store.Table.Newest`, whose contract states it is the row with the largest id |
| ProtocolosNew.CreatedRow | pages/api/protocolos/new.ts:41-88 | no contract of its own; its counter is stated by `Processo.NextNumProcessoRule`, its columns by `ProtocolosNew.NewRow` and `ProtocolosNew.NewRowStoresUpperCasedText`, and its use by `ProtocolosNew.NewProtocolo` and `ProtocolosNew.TwoRequestsInOneMonth` |
| ProtocolosNew.TwoRequestsInOneMonth | pages/api/protocolos/new.ts:40-67 | two requests in one month get consecutive counters, and the second `processo` is `month/counter/yy` |
| ProtocoloNew.NewLegacyRow | pages/api/protocolo/new.ts:38-55 | every text field is stored upper-cased (its value is stated by `ProtocoloNew.NewLegacyRowStoresUpperCasedText`); the phone is `String(telefone)`; a notification is requested iff `enviar_whatsapp` and `telefone` are truthy |
| ProtocoloNew.NewLegacyRowStoresUpperCasedText | pages/api/protocolo/new.ts:40-45 | `num_inscricao`, `num_processo`, `assunto`, `anos_analise`, `nome` and `cpf` are each `String(x).toUpperCase()` of the request's value |
| ProtocoloNew.AbsentFieldsStoredAsUNDEFINED | pages/api/protocolo/new.ts:40-63 | absent fields are stored as "UNDEFINED" and sent as that instead of "Não se aplica" |
| ProtocoloNew.NewLegacyProtocolo | pages/api/protocolo/new.ts:14-109 | 405; 401 without a session; otherwise one row appended; the 200 answer carries the row as created; the payload is posted only when requested; the flag is raised only on an ok answer |
| ProtocoloNew.LegacyPayloadOf | pages/api/protocolo/new.ts:59-68 | no contract of its own; it is `Whatsapp.PayloadStrippingAll` with `num_processo` as the process, and `ProtocoloNew.AbsentFieldsStoredAsUNDEFINED` and `ProtocoloSendWhatsApp.OlderAndNewerPayloads` state its fields |
| ProtocoloNew.MarkLegacySent | pages/api/protocolo/new.ts:81-88 | no contract of its own; `ProtocoloNew.MarkLegacySentOnlyRaisesFlag` states it |
| ProtocoloNew.MarkLegacySentOnlyRaisesFlag | pages/api/protocolo/new.ts:81-88 | marking an older row as sent raises `whatsapp_enviado` and changes no other column |
| ProtocoloSendWhatsApp.OlderPayloadKeepsEmptyText | pages/api/protocolo/send-whatsapp.ts:37 | an empty `num_inscricao` is sent empty by the older handler, but as "Não se aplica" by the newer payload |
| ProtocoloSendWhatsApp.OlderAndNewerPayloads | pages/api/protocolo/send-whatsapp.ts:36-45 | both payloads send `num_processo`, the subject and the name; they are equal on simple input |
| ProtocoloSendWhatsApp.OlderPayloadOf | pages/api/protocolo/send-whatsapp.ts:36-45 | no contract of its own; it is `Whatsapp.PayloadStrippingFirst` with `num_processo` as the process, and `ProtocoloSendWhatsApp.OlderPayloadKeepsEmptyText` and `ProtocoloSendWhatsApp.OlderAndNewerPayloads` state its fields |
| ProtocoloSendWhatsApp.HandleOlderSendWhatsApp | pages/api/protocolo/send-whatsapp.ts:8-72 | 405; 401; 500 for an unknown id; 400 for an empty phone; otherwise 200 with the older payload, and the flag raised only on an ok answer |
| AssuntosNew.NormaliseName | pages/api/assuntos/new.ts:32 | the stored name is upper-case with no whitespace at either end, and empty exactly when the submitted name is blank |
| AssuntosNew.NormaliseKeepsText | pages/api/assuntos/new.ts:32 | the upper-cased submitted name is whitespace, then the stored name, then whitespace: only the padding is taken away |
| AssuntosNew.NormaliseIgnoresCaseAndPadding | pages/api/assuntos/new.ts:30-43 | names that differ only in letter case or padding normalise alike |
| AssuntosNew.NormaliseIdempotent | pages/api/assuntos/new.ts:41-45 | a stored name normalises to itself |
| AssuntosNew.FindByName | pages/api/assuntos/new.ts:30-34 | finds a row with that name, deleted or not, and finds none only when no row has it |
| AssuntosNew.AppendFreshName | pages/api/assuntos/new.ts:36-56 | creating only untaken names keeps the names distinct |
| AssuntosNew.NamesDistinct | pages/api/assuntos/new.ts:30-39 | the invariant the duplicate check keeps: no two rows share a name; `AssuntosNew.AppendFreshName` and `AssuntosNew.NewAssunto` state that it is preserved |
| AssuntosNew.NewAssunto | pages/api/assuntos/new.ts:15-71 | 405; 401; 500 for a non-string name; 400 when the normalised name is taken; otherwise 200 with the new row; names stay distinct; no write on failure |
| AssuntosNew.RegisterTwice | pages/api/assuntos/new.ts:30-39 | registering a name and then its upper-cased, padded form is refused the second time |
| CapasNew.CapaSubject | pages/api/capas/new.ts:42-45 | the subject is the upper-cased free text exactly when the choice is the string "Outro" |
| CapasNew.NewCapaRow | pages/api/capas/new.ts:38-61 | text is stored upper-cased, the subject being `CapaSubject` (the other values are stated by `CapasNew.NewCapaRowStoresUpperCasedText`); `observacao` and `volume` are empty exactly when falsy; the row is not deleted |
| CapasNew.NewCapaRowStoresUpperCasedText | pages/api/capas/new.ts:40-48 | `num_protocolo` and `requerente` are the request's text upper-cased, and so are `observacao` and `volume` when truthy |
| CapasNew.OutroWithoutTextStoresUNDEFINED | pages/api/capas/new.ts:42-45 | "Outro" with no free text stores "UNDEFINED" |
| CapasNew.NewCapa | pages/api/capas/new.ts:15-76 | 405; 401 without a session and no write; otherwise one row appended and 200 |
| CapasPage.AsWrittenAcceptsOnlyUndescribedOutro | pages/capas/new.tsx:30-34 | the written refinement holds exactly for "Outro" with a blank description |
| CapasPage.IntendedRequiresDescriptionForOutro | pages/capas/new.tsx:30-34 | the corrected refinement fails exactly for "Outro" with a blank description |
| CapasPage.RefineAsWritten | pages/capas/new.tsx:30-34 | no contract of its own; `CapasPage.AsWrittenAcceptsOnlyUndescribedOutro` states exactly when it holds |
| CapasPage.RefineIntended | pages/capas/new.tsx:30-34 | no contract of its own; `CapasPage.IntendedRequiresDescriptionForOutro` states exactly when it holds |
| CapasPage.Refine | pages/capas/new.tsx:30-34 | no contract of its own; selects one of the two refinements for `CapasPage.SafeParse` and `CapasPage.CapaCreatePage.HandleSubmit` |
| CapasPage.SafeParse | pages/capas/new.tsx:21-34 | parsing succeeds iff the date-time check and the refinement both pass, and then gives the form back; otherwise it reports exactly one issue per failed check, the date-time issue first |
| CapasPage.RefinementFailureMessage | pages/capas/new.tsx:87-94 | a refinement failure alone is shown as its message followed by a second "." |
| CapasPage.IssuesMessage | pages/capas/new.tsx:92 | no contract of its own; `CapasPage.RefinementFailureMessage` states the banner for a lone refinement failure, and `CapasPage.CapaCreatePage.Settle` that the failure banner is this text |
| CapasPage.RequestOf | pages/capas/new.tsx:61-72 | the posted body carries each parsed field (`num_protocolo`, `assunto`, `outro_assunto`, `volume`, `observacao`) as that text, and no `requerente` |
| CapasPage.PageStoresRequerenteAsUNDEFINED | pages/capas/new.tsx:61-72 | a Capa created from the page stores "UNDEFINED" as `requerente` |
| CapasPage.AsWrittenRefusesListedSubject | pages/capas/new.tsx:30-34 | as written, any subject picked from the list is refused |
| CapasPage.AsWrittenStoresBlankSubject | pages/capas/new.tsx:30-34 | as written, "Outro" with a blank description passes and is stored with a blank subject |
| CapasPage.IntendedStoresDescribedSubject | pages/capas/new.tsx:30-34 | corrected, a listed subject passes, and "Outro" is always stored with a non-blank subject |
| CapasPage.CapaCreatePage.constructor | pages/capas/new.tsx:41-56 | the page starts with an empty form, no banner and not loading |
| CapasPage.CapaCreatePage.HandleSubmit | pages/capas/new.tsx:21-103 | with the refinement as written or as corrected: invalid form: error banner with the joined issues, nothing posted. Valid form: the form is posted; an ok reply gives a success banner and clears the form; any other reply gives an error banner and keeps the form. Loading ends either way. As written, a listed subject with a valid date is refused with the banner "É necessário descrever o assunto.." and nothing is posted |
| CapasPage.CapaCreatePage.Settle | pages/capas/new.tsx:62-102 | given a parse result that came from the current form: a failure sets the error banner to the issue messages joined by ", " and then "." and posts nothing; a success posts the parsed data and sets the banner and the form according to whether the reply is ok |
| CapasPage.LiveCapas | pages/capas/new.tsx:395-397 | the rows loaded are exactly the stored rows that are not deleted |
| CapasPage.CapaPageProps | pages/capas/new.tsx:383-405 | without a session, a redirect to /login; otherwise the non-deleted Capa rows |
| UsersPage.FormCompleteIffNoBlankField | pages/users/new.tsx:38 | the form is complete exactly when no field is blank |
| UsersPage.FormComplete | pages/users/new.tsx:38 | no contract of its own; `UsersPage.FormCompleteIffNoBlankField` states it holds exactly when no field is blank |
| UsersPage.RoleOptions | pages/users/new.tsx:149-163 | SUPERADMIN is offered only to a SUPERADMIN, and every other role to everyone |
| UsersPage.RoleOptionsOfAllRoles | pages/users/new.tsx:149-163 | over the declared roles (`Http.AllRoles`), a SUPERADMIN sees all three, anyone else sees USER and ADMIN, in the order of the declaration |
| UsersPage.UserCreatePage.constructor | pages/users/new.tsx:18-33 | the page starts with an empty form, no banner and not loading |
| UsersPage.UserCreatePage.HandleSubmit | pages/users/new.tsx:35-72 | incomplete form: "Preencha as informações." and nothing posted. Complete form: posted as is; an ok reply gives a success banner and clears the form; any other reply gives an error banner and keeps the form |
| UsersPage.UserPageProps | pages/users/new.tsx:179-223 | no session: /login; unknown user: the page throws; a stored USER: redirected with the permission notification; otherwise the stored user's info, never a USER |
| UsersPage.NoPermission | pages/users/new.tsx:199-205 | the redirect target for a USER; `UsersPage.UserPageProps` states that a stored USER is sent there |
| UsersPage.RenderedPageOffersRoles | pages/users/new.tsx:149-223 | a rendered page offers SUPERADMIN exactly to a stored SUPERADMIN, and ADMIN and USER always |

## Left out

- Dates are not modelled:
  - the `created_at` column and the payload's `data` field (`toLocaleDateString("pt-BR")`);
  - the Capa `distribuicao` date;
  - the clock, whose year and month are parameters of `ProtocolosNew.NewProtocolo`.
- zod's `.datetime()` format check is a boolean parameter of `CapasPage.SafeParse`. The other zod checks do not arise, because the form state always holds text in every field.
- External services are not modelled:
  - the ORM and the database. An in-memory table stands in for them. The 500 answers the outer `catch` gives to database failures are left out. The unknown-id case and the non-string Assunto name are modelled.
  - next-auth. The session is a parameter.
  - the WhatsApp gateway's URL, headers and response body. Only whether it answered ok is a parameter.
- Ordering and concurrency are not modelled:
  - Two create requests can read the same newest row and produce the same counter. The model handles one request at a time.
  - In the current create handler and in the current notifier handler (`pages/api/protocolos/send-whatsapp.ts:35`), `sendWhatsApp` is not awaited, so the flag update can land after the answer is sent. The model applies it before returning. The final table is the same, but a read made in between is not modelled.
- Some relations are not modelled: the `creator`, `editor` and `user` relations that the answers include. Only the creating user's id is kept.
- `Js.ToUpper`: maps ASCII and Latin-1 letters only. Characters whose upper case is longer, such as "ß" to "SS", are kept as they are.
- `Js.ParseNumber`: reads blank text as 0 and an optionally signed run of decimal digits as its integer, and everything else as NaN. Decimals, exponents, hexadecimal and Infinity are not modelled, so no numbers are floating point.
- `Js.JsValue`: a request field is undefined, null, a boolean, an integer or a string. Objects and arrays in a body are not modelled.
- The `id` sent to the notifier handlers is a natural number. A non-numeric id, which makes the ORM throw and the handler answer 500, is not modelled.
- `Schema.AssuntoRow`, `Schema.CapaRow`: `deleted_at` is reduced to a flag. New rows are taken to have it null, since the ORM schema file is not part of this model.
- `Http.AllRoles`: the members of the `Role` enum and their declaration order, USER, ADMIN, SUPERADMIN, are assumed, because the ORM schema file that declares them is not part of this model. The order of the options stated by `UsersPage.RoleOptionsOfAllRoles` rests on it.
- `Schema.ProtocoloRow`, `Schema.LegacyProtocoloRow`: `num_inscricao` and `anos_analise` are taken to be nullable columns, since the ORM schema file is not part of this model. The contrast between the `??` and the truthiness defaults in the payloads rests on this.
- `Schema.LegacyProtocoloRow`: the older handlers run against a table of their own. So the model does not capture a row written by the current handlers being read by the older ones, or the reverse, though both write the same `protocolo` table.
- `UsersPage.RoleOptions`: states which roles are offered, not their order. Their order for the three roles is stated by `UsersPage.RoleOptionsOfAllRoles`.
- `CapasPage.LiveCapas`: states which rows are kept, not that their order is kept.
- `CapasPage.CapaCreatePage.HandleSubmit`, `UsersPage.UserCreatePage.HandleSubmit`: run to completion. The state while a request is in flight is not modelled: the banner cleared and `isLoading` true.
- `CapasPage.CapaCreatePage.HandleSubmit`: the "PRINT" submitter branch is empty in the source and is not modelled.
- The pages' rendering, `handleChange` and the list pages are not modelled. The user registration API that `pages/users/new.tsx` posts to is not part of this model.
- `CapasPage.CapaPageProps`: the rows it returns are passed as `assuntos`, and the select reads `name` from them. That rendering is not modelled.

## Findings

| source | as written | input that shows it | evidently intended | confidence | as-written member | corrected member |
|---|---|---|---|---|---|---|
| pages/capas/new.tsx:30-34 | the refinement holds only when `assunto === "Outro"` and the description is blank | any form with a subject picked from the list, such as assunto "SAÚDE", is refused with "É necessário descrever o assunto."; "Outro" with an empty description passes | refuse only "Outro" with a blank description: `!(assunto === "Outro" && outro_assunto.trim().length === 0)` | high; not executed | CapasPage.AsWrittenRefusesListedSubject | CapasPage.IntendedStoresDescribedSubject |
