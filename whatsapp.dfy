/** The JSON body posted to the WhatsApp gateway, in its two variants: the
    current one (falsy fields default, every "." and "-" stripped with
    `replaceAll`) and the older one (only null defaults with `??`, only the
    first "." and "-" stripped with `replace`). */
module Whatsapp {
  import opened Js

  const NotApplicable: string := "Não se aplica"

  /** The posted fields; `data`, the creation date formatted for pt-BR, is not modelled. */
  datatype Payload = Payload(
    inscricao: string,
    processo: string,
    assunto: string,
    analise: string,
    nome: string,
    cpf: string,
    whatsapp: string)

  /** `x ? x : "Não se aplica"` on a nullable text column. */
  function OrIfFalsy(x: Option<string>): (r: string)
    ensures r == NotApplicable <==> x.None? || x.value == "" || x.value == NotApplicable
    ensures r != NotApplicable ==> x == Some(r)
  {
    match x
    case Some(s) => if s != "" then s else NotApplicable
    case None => NotApplicable
  }

  /** `x ?? "Não se aplica"` on a nullable text column. */
  function OrIfNullish(x: Option<string>): (r: string)
    ensures x.Some? ==> r == x.value
    ensures x.None? ==> r == NotApplicable
  {
    match x
    case Some(s) => s
    case None => NotApplicable
  }

  /** The two defaults differ on exactly one input: the empty string. */
  lemma DefaultsDifferOnlyOnEmpty(x: Option<string>)
    ensures OrIfFalsy(x) != OrIfNullish(x) <==> x == Some("")
  {
    if x == Some("") {
      assert OrIfNullish(x) == "" != NotApplicable;
    }
  }

  /** `cpf.replaceAll(".", "").replaceAll("-", "")` */
  function StripCpf(cpf: string): (r: string)
    ensures '.' !in r && '-' !in r
  {
    RemoveAll(RemoveAll(cpf, '.'), '-')
  }

  /** `cpf.replace(".", "").replace("-", "")` */
  function StripCpfFirst(cpf: string): string {
    RemoveFirst(RemoveFirst(cpf, '.'), '-')
  }

  /** Stripping keeps every character other than "." and "-", as often as it occurred. */
  lemma StripCpfCounts(cpf: string)
    ensures multiset(StripCpf(cpf)) == multiset(cpf)['.' := 0]['-' := 0]
  {
    RemoveAllCounts(cpf, '.');
    RemoveAllCounts(RemoveAll(cpf, '.'), '-');
  }

  /** The older stripping takes away at most one "." and one "-". */
  lemma StripCpfFirstCounts(cpf: string)
    ensures multiset(StripCpfFirst(cpf)) == multiset(cpf) - multiset{'.'} - multiset{'-'}
  {
    RemoveFirstCounts(cpf, '.');
    RemoveFirstCounts(RemoveFirst(cpf, '.'), '-');
  }

  /** Stripping keeps every other character in its order: it works piece by piece. */
  lemma StripCpfConcat(a: string, b: string)
    ensures StripCpf(a + b) == StripCpf(a) + StripCpf(b)
  {
    RemoveAllConcat(a, b, '.');
    RemoveAllConcat(RemoveAll(a, '.'), RemoveAll(b, '.'), '-');
  }

  /** A digits-only CPF is sent as it is. */
  lemma StripCpfOfDigits(cpf: string)
    requires AllDigits(cpf)
    ensures StripCpf(cpf) == cpf
  {
    assert '.' !in cpf && '-' !in cpf;
    RemoveAllWithoutOccurrence(cpf, '.');
    RemoveAllWithoutOccurrence(cpf, '-');
  }

  /** The payload of the current notifier and of the older create handler. */
  function PayloadStrippingAll(
    num_inscricao: Option<string>, processo: string, assunto: string,
    anos_analise: Option<string>, nome: string, cpf: string, telefone: string): (p: Payload)
    ensures p.inscricao == OrIfFalsy(num_inscricao) && p.analise == OrIfFalsy(anos_analise)
    ensures '.' !in p.cpf && '-' !in p.cpf && '-' !in p.whatsapp
    ensures multiset(p.cpf) == multiset(cpf)['.' := 0]['-' := 0]
    ensures multiset(p.whatsapp) == multiset(telefone)['-' := 0]
    ensures p.processo == processo && p.assunto == assunto && p.nome == nome
  {
    StripCpfCounts(cpf);
    RemoveAllCounts(telefone, '-');
    Payload(OrIfFalsy(num_inscricao), processo, assunto, OrIfFalsy(anos_analise), nome,
      StripCpf(cpf), RemoveAll(telefone, '-'))
  }

  /** The payload of the older notifier. */
  function PayloadStrippingFirst(
    num_inscricao: Option<string>, processo: string, assunto: string,
    anos_analise: Option<string>, nome: string, cpf: string, telefone: string): (p: Payload)
    ensures p.inscricao == OrIfNullish(num_inscricao) && p.analise == OrIfNullish(anos_analise)
    ensures multiset(p.cpf) == multiset(cpf) - multiset{'.'} - multiset{'-'}
    ensures multiset(p.whatsapp) == multiset(telefone) - multiset{'-'}
    ensures '.' !in cpf ==> p.cpf == RemoveFirst(cpf, '-')
    ensures p.processo == processo && p.assunto == assunto && p.nome == nome
  {
    StripCpfFirstCounts(cpf);
    RemoveFirstCounts(telefone, '-');
    Payload(OrIfNullish(num_inscricao), processo, assunto, OrIfNullish(anos_analise), nome,
      StripCpfFirst(cpf), RemoveFirst(telefone, '-'))
  }

  /** A CPF in its usual written form, such as "111.111.111-11", keeps its
      second dot through the older notifier's `replace`. */
  lemma FormattedCpfKeepsDotInOlderPayload(a: string, b: string, c: string, e: string)
    requires AllDigits(a) && AllDigits(b) && AllDigits(c) && AllDigits(e)
    ensures StripCpfFirst(a + "." + b + "." + c + "-" + e) == a + b + "." + c + e
    ensures '.' in StripCpfFirst(a + "." + b + "." + c + "-" + e)
  {
    var dot, dash := ".", "-";
    var cpf := a + dot + b + dot + c + dash + e;
    assert '.' !in a;
    assert cpf == a + (dot + (b + dot + c + dash + e));
    RemoveFirstSkips(a, dot + (b + dot + c + dash + e), '.');
    var once := a + b + dot + c + dash + e;
    assert RemoveFirst(cpf, '.') == once;
    var head := a + b + dot + c;
    assert '-' !in head;
    assert once == head + (dash + e);
    RemoveFirstSkips(head, dash + e, '-');
    assert StripCpfFirst(cpf) == head + e;
    assert (head + e)[|a + b|] == '.';
  }

  /** The same CPF loses every separator through the current notifier's `replaceAll`. */
  lemma FormattedCpfLosesSeparatorsInCurrentPayload(a: string, b: string, c: string, e: string)
    requires AllDigits(a) && AllDigits(b) && AllDigits(c) && AllDigits(e)
    ensures StripCpf(a + "." + b + "." + c + "-" + e) == a + b + c + e
  {
    var dot, dash := ".", "-";
    StripCpfOfDigits(a);
    StripCpfOfDigits(b);
    StripCpfOfDigits(c);
    StripCpfOfDigits(e);
    assert StripCpf(dot) == [] && StripCpf(dash) == [];
    StripCpfConcat(a, dot);
    StripCpfConcat(a + dot, b);
    StripCpfConcat(a + dot + b, dot);
    StripCpfConcat(a + dot + b + dot, c);
    StripCpfConcat(a + dot + b + dot + c, dash);
    StripCpfConcat(a + dot + b + dot + c + dash, e);
  }

  lemma {:induction false} RemoveFirstSkips(a: string, b: string, c: char)
    requires c !in a
    ensures RemoveFirst(a + b, c) == a + RemoveFirst(b, c)
    decreases |a|
  {
    var s := a + b;
    if a == [] {
      assert s == b;
    } else {
      assert s[0] == a[0] && s[0] != c;
      assert RemoveFirst(s, c) == [s[0]] + RemoveFirst(s[1..], c);
      assert s[1..] == a[1..] + b;
      RemoveFirstSkips(a[1..], b, c);
      assert [a[0]] + (a[1..] + RemoveFirst(b, c)) == a + RemoveFirst(b, c);
    }
  }

  /** When the CPF has at most one "." and one "-", the phone at most one "-",
      and no defaulted column holds "", the two payloads are the same. */
  lemma PayloadsAgreeOnSimpleInput(
    num_inscricao: Option<string>, processo: string, assunto: string,
    anos_analise: Option<string>, nome: string, cpf: string, telefone: string)
    requires multiset(cpf)['.'] <= 1 && multiset(cpf)['-'] <= 1 && multiset(telefone)['-'] <= 1
    requires num_inscricao != Some("") && anos_analise != Some("")
    ensures PayloadStrippingFirst(num_inscricao, processo, assunto, anos_analise, nome, cpf, telefone)
         == PayloadStrippingAll(num_inscricao, processo, assunto, anos_analise, nome, cpf, telefone)
  {
    DefaultsDifferOnlyOnEmpty(num_inscricao);
    DefaultsDifferOnlyOnEmpty(anos_analise);
    RemoveFirstIsRemoveAllForOneOccurrence(cpf, '.');
    var once := RemoveAll(cpf, '.');
    RemoveAllCounts(cpf, '.');
    assert multiset(once)['-'] == multiset(cpf)['-'];
    RemoveFirstIsRemoveAllForOneOccurrence(once, '-');
    RemoveFirstIsRemoveAllForOneOccurrence(telefone, '-');
  }
}
