/** The rows of the four tables the core writes. The ORM schema file is not
    part of this model; the columns are those the handlers read and write.
    `num_inscricao` and `anos_analise` are taken to be nullable, and the
    `deleted_at` timestamp is reduced to a `deleted` flag (set when the timestamp is not null). */
module Schema {
  import opened Js
  import opened Http

  /** A Protocolo row as the current handlers write it. */
  datatype ProtocoloRow = ProtocoloRow(
    num_inscricao: Option<string>,
    num_processo: int,
    processo: string,
    assunto: string,
    anos_analise: Option<string>,
    nome: string,
    cpf: string,
    cnpj: string,
    telefone: string,
    enviar_whatsapp: bool,
    whatsapp_enviado: bool,
    creator: nat)

  /** A Protocolo row as the older handlers write it: `num_processo` is the
      client's text, there is no generated `processo` and no `cnpj`, and the
      creating user is the `user` relation. */
  datatype LegacyProtocoloRow = LegacyProtocoloRow(
    num_inscricao: Option<string>,
    num_processo: string,
    assunto: string,
    anos_analise: Option<string>,
    nome: string,
    cpf: string,
    telefone: string,
    enviar_whatsapp: bool,
    whatsapp_enviado: bool,
    user: nat)

  datatype AssuntoRow = AssuntoRow(name: string, creator: nat, deleted: bool)

  /** A Capa row; the `distribuicao` date is not modelled. */
  datatype CapaRow = CapaRow(
    num_protocolo: string,
    assunto: string,
    requerente: string,
    observacao: string,
    volume: string,
    creator: nat,
    deleted: bool)

  /** A User row, as far as the user pages read it. */
  datatype UserRow = UserRow(name: string, email: string, role: Role, is_enabled: bool)
}
