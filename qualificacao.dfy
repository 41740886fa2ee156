/**
 * Lead qualification: the five questions the agent asks, which of them a lead's recorded
 * interest still leaves open, the next one to ask, what the agent's prompt includes, and the
 * reading of a Brazilian price phrase ("500 mil", "1.2 milhão", "R$ 350.000") as centavos.
 */
module Qualificacao {
  import opened Wrappers
  import opened Text
  import opened Numbers
  import opened CrmSchema

  /** The `id` of a qualification question, in the table's order. */
  datatype IdPergunta = PerguntaNegocio | PerguntaTipo | PerguntaQuartos | PerguntaBairros | PerguntaPreco {
    function Indice(): nat {
      match this
      case PerguntaNegocio => 0
      case PerguntaTipo => 1
      case PerguntaQuartos => 2
      case PerguntaBairros => 3
      case PerguntaPreco => 4
    }

    /** The id as the table writes it. */
    function Nome(): string {
      match this
      case PerguntaNegocio => "negocio"
      case PerguntaTipo => "tipo"
      case PerguntaQuartos => "quartos"
      case PerguntaBairros => "bairros"
      case PerguntaPreco => "preco"
    }
  }

  /** The kind of answer a question expects, where the table states one. */
  datatype TipoResposta = Numero | TextoLista | Preco

  /** An entry of `PERGUNTAS_QUALIFICACAO`; `campo` names the field of the interest it fills. */
  datatype Pergunta = Pergunta(
    id: IdPergunta,
    pergunta: string,
    campo: string,
    opcoes: Option<seq<string>>,
    tipo: Option<TipoResposta>)

  /** `PERGUNTAS_QUALIFICACAO`. */
  const Perguntas: seq<Pergunta> := [
    Pergunta(PerguntaNegocio, "Você está buscando imóvel para compra ou aluguel?", "negocio",
      Some(["venda", "aluguel", "ambos"]), None),
    Pergunta(PerguntaTipo, "Que tipo de imóvel você procura?", "tipoImovel",
      Some(["apartamento", "casa", "terreno", "sala comercial", "outro"]), None),
    Pergunta(PerguntaQuartos, "Quantos quartos você precisa?", "quartosMin", None, Some(Numero)),
    Pergunta(PerguntaBairros, "Tem preferência de bairro ou região?", "bairros", None, Some(TextoLista)),
    Pergunta(PerguntaPreco, "Qual sua faixa de preço máxima?", "precoMax", None, Some(Preco))
  ]

  /** The table lists each question once, at the position of its id. */
  lemma PerguntasEmOrdem()
    ensures |Perguntas| == 5
    ensures forall k :: 0 <= k < 5 ==> Perguntas[k].id.Indice() == k
  {
  }

  /** The question that asks about `id`. */
  function PerguntaDe(id: IdPergunta): (p: Pergunta)
    ensures p in Perguntas && p.id == id
  {
    PerguntasEmOrdem();
    Perguntas[id.Indice()]
  }

  /**
   * The slot a question asks about is still open in the interest `i`: the deal type when it is
   * absent or empty, the lists when they are absent or empty, the two numbers only when they are
   * absent (zero counts as an answer).
   */
  predicate Pendente(i: InteresseLead, id: IdPergunta)
    ensures i == InteresseVazio ==> Pendente(i, id)
    ensures id == PerguntaNegocio && i.negocio == Some("") ==> Pendente(i, id)
    ensures id == PerguntaQuartos && i.quartosMin == Some(0) ==> !Pendente(i, id)
    ensures id == PerguntaPreco && i.precoMax == Some(0.0) ==> !Pendente(i, id)
  {
    match id
    case PerguntaNegocio => !Preenchido(i.negocio)
    case PerguntaTipo => i.tipoImovel.None? || i.tipoImovel.value == []
    case PerguntaQuartos => i.quartosMin.None?
    case PerguntaBairros => i.bairros.None? || i.bairros.value == []
    case PerguntaPreco => i.precoMax.None?
  }

  /** What `analisarQualificacao` returns. */
  datatype ResultadoQualificacao = ResultadoQualificacao(
    interesse: InteresseLead,
    completa: bool,
    perguntasPendentes: seq<IdPergunta>)

  /** The id at position `k` of the table. */
  function IdNaPosicao(k: nat): (id: IdPergunta)
    requires k < 5
    ensures id.Indice() == k
  {
    IdsPerguntas[k]
  }

  /**
   * The tests of `analisarQualificacao` from position `k` of the table on, each pushing its id
   * when its slot is open: exactly the open slots at or after `k`, in the table's order.
   */
  function PendentesDesde(i: InteresseLead, k: nat): (r: seq<IdPergunta>)
    decreases 5 - k
    ensures forall id :: id in r <==> id.Indice() >= k && Pendente(i, id)
    ensures forall a :: 0 <= a < |r| ==> r[a].Indice() >= k
    ensures forall a, b :: 0 <= a < b < |r| ==> r[a].Indice() < r[b].Indice()
  {
    if k >= 5 then []
    else
      var id := IdNaPosicao(k);
      var resto := PendentesDesde(i, k + 1);
      var r := (if Pendente(i, id) then [id] else []) + resto;
      PendentesPasso(i, k, id, resto, r);
      r
  }

  /** One test of `analisarQualificacao` followed by the later ones. */
  lemma PendentesPasso(i: InteresseLead, k: nat, id: IdPergunta, resto: seq<IdPergunta>, r: seq<IdPergunta>)
    requires id.Indice() == k
    requires forall x :: x in resto <==> x.Indice() >= k + 1 && Pendente(i, x)
    requires forall a :: 0 <= a < |resto| ==> resto[a].Indice() >= k + 1
    requires forall a, b :: 0 <= a < b < |resto| ==> resto[a].Indice() < resto[b].Indice()
    requires r == (if Pendente(i, id) then [id] else []) + resto
    ensures forall x :: x in r <==> x.Indice() >= k && Pendente(i, x)
    ensures forall a :: 0 <= a < |r| ==> r[a].Indice() >= k
    ensures forall a, b :: 0 <= a < b < |r| ==> r[a].Indice() < r[b].Indice()
  {
    forall x: IdPergunta | x.Indice() == k ensures x == id {
      IndiceInjetivo(x, id);
    }
  }

  lemma IndiceInjetivo(x: IdPergunta, y: IdPergunta)
    requires x.Indice() == y.Indice()
    ensures x == y
  {
  }

  /**
   * `analisarQualificacao`: a lead without an interest object is read as `{}`; the pending
   * questions are exactly those whose slot is open, each once, in the table's order, and the
   * qualification is complete exactly when none is pending.
   */
  function AnalisarQualificacao(lead: Lead): (r: ResultadoQualificacao)
    ensures r.interesse == lead.interesse.GetOr(InteresseVazio)
    ensures forall id :: id in r.perguntasPendentes <==> Pendente(r.interesse, id)
    ensures forall a, b :: 0 <= a < b < |r.perguntasPendentes| ==>
      r.perguntasPendentes[a].Indice() < r.perguntasPendentes[b].Indice()
    ensures r.completa <==> r.perguntasPendentes == []
  {
    var i := lead.interesse.GetOr(InteresseVazio);
    var pendentes := PendentesDesde(i, 0);
    ResultadoQualificacao(i, |pendentes| == 0, pendentes)
  }

  /** The ids in the table's order. */
  const IdsPerguntas: seq<IdPergunta> := [PerguntaNegocio, PerguntaTipo, PerguntaQuartos, PerguntaBairros, PerguntaPreco]

  /** When every slot is open, the tests from position `k` on push the rest of the table. */
  lemma {:induction false} PendentesTodos(i: InteresseLead, k: nat)
    requires k <= 5
    requires forall id :: Pendente(i, id)
    decreases 5 - k
    ensures PendentesDesde(i, k) == IdsPerguntas[k..]
  {
    if k < 5 {
      PendentesTodos(i, k + 1);
      PendentesCabeca(i, k);
      IdsPerguntasCauda(k);
    }
  }

  /** An open slot at position `k` heads the list of the tests from `k` on. */
  lemma PendentesCabeca(i: InteresseLead, k: nat)
    requires k < 5 && Pendente(i, IdNaPosicao(k))
    ensures PendentesDesde(i, k) == [IdNaPosicao(k)] + PendentesDesde(i, k + 1)
  {
  }

  lemma IdsPerguntasCauda(k: nat)
    requires k < 5
    ensures IdsPerguntas[k..] == [IdNaPosicao(k)] + IdsPerguntas[k + 1..]
  {
  }

  /** A lead with no recorded interest has all five questions pending, in the table's order. */
  lemma SemInteresseTudoPendente(lead: Lead)
    requires lead.interesse.None?
    ensures AnalisarQualificacao(lead).perguntasPendentes == IdsPerguntas
  {
    PendentesTodos(InteresseVazio, 0);
  }

  /** No question before position `k` of `ps` is pending. */
  predicate PrimeiroEm(ps: seq<Pergunta>, k: nat, pendentes: seq<IdPergunta>) {
    forall j :: 0 <= j < k && j < |ps| ==> ps[j].id !in pendentes
  }

  /** `PERGUNTAS_QUALIFICACAO.find`: the first question of `ps` whose id is pending. */
  function PrimeiraPendente(ps: seq<Pergunta>, pendentes: seq<IdPergunta>): (r: Option<Pergunta>)
    decreases |ps|
    ensures r.Some? ==> r.value in ps && r.value.id in pendentes
    ensures r.None? <==> forall k :: 0 <= k < |ps| ==> ps[k].id !in pendentes
    ensures r.Some? ==> exists k :: 0 <= k < |ps| && ps[k] == r.value && PrimeiroEm(ps, k, pendentes)
  {
    if ps == [] then None
    else if ps[0].id in pendentes then Some(ps[0])
    else
      var r := PrimeiraPendente(ps[1..], pendentes);
      assert r.Some? ==> exists k :: 0 <= k < |ps| && ps[k] == r.value && PrimeiroEm(ps, k, pendentes) by {
        if r.Some? {
          var k :| 0 <= k < |ps[1..]| && ps[1..][k] == r.value && PrimeiroEm(ps[1..], k, pendentes);
          assert ps[k + 1] == r.value;
          forall j | 0 <= j < k + 1 ensures ps[j].id !in pendentes {
            if j > 0 { assert ps[j] == ps[1..][j - 1]; }
          }
          assert PrimeiroEm(ps, k + 1, pendentes);
        }
      }
      r
  }

  /**
   * `proximaPerguntaQualificacao`: none exactly when the qualification is complete; otherwise
   * the question about the first pending slot.
   */
  function ProximaPergunta(lead: Lead): (r: Option<Pergunta>)
    ensures r.None? <==> AnalisarQualificacao(lead).completa
    ensures r.Some? ==> r.value == PerguntaDe(AnalisarQualificacao(lead).perguntasPendentes[0])
  {
    var pendentes := AnalisarQualificacao(lead).perguntasPendentes;
    if |pendentes| == 0 then None
    else
      var r := PrimeiraPendente(Perguntas, pendentes);
      PrimeiraEhPrimeiroPendente(lead, r);
      r
  }

  /** The find over the table lands on the question about the first pending id. */
  lemma PrimeiraEhPrimeiroPendente(lead: Lead, r: Option<Pergunta>)
    requires AnalisarQualificacao(lead).perguntasPendentes != []
    requires r == PrimeiraPendente(Perguntas, AnalisarQualificacao(lead).perguntasPendentes)
    ensures r.Some? && r.value == PerguntaDe(AnalisarQualificacao(lead).perguntasPendentes[0])
  {
    PerguntasEmOrdem();
    PrimeiraNaOrdem(Perguntas, AnalisarQualificacao(lead).perguntasPendentes);
  }

  /**
   * Over a table that holds each question at the position of its id, the first question whose
   * id is pending is the one about the first id of an increasing pending list.
   */
  lemma PrimeiraNaOrdem(ps: seq<Pergunta>, pendentes: seq<IdPergunta>)
    requires |ps| == 5 && forall k :: 0 <= k < 5 ==> ps[k].id.Indice() == k
    requires pendentes != []
    requires forall a, b :: 0 <= a < b < |pendentes| ==> pendentes[a].Indice() < pendentes[b].Indice()
    ensures PrimeiraPendente(ps, pendentes) == Some(ps[pendentes[0].Indice()])
  {
    var r := PrimeiraPendente(ps, pendentes);
    var primeiro := pendentes[0];
    assert ps[primeiro.Indice()].id in pendentes by {
      IndiceInjetivo(ps[primeiro.Indice()].id, primeiro);
    }
    var k :| 0 <= k < |ps| && ps[k] == r.value && PrimeiroEm(ps, k, pendentes);
    var m :| 0 <= m < |pendentes| && pendentes[m] == r.value.id;
    if m > 0 {
      assert false;
    }
    IndiceInjetivo(ps[k].id, ps[primeiro.Indice()].id);
  }

  /** The line that lists a question's options; empty when the question has none. */
  function LinhaOpcoes(p: Pergunta): string {
    if p.opcoes.Some? then "Opções: " + Join(p.opcoes.value, ", ") else ""
  }

  function NomesPendentes(pendentes: seq<IdPergunta>): (r: seq<string>)
    ensures |r| == |pendentes|
    ensures forall k :: 0 <= k < |r| ==> r[k] == pendentes[k].Nome()
  {
    seq(|pendentes|, k requires 0 <= k < |pendentes| => pendentes[k].Nome())
  }

  /** The lines of the prompt for a lead still being qualified, before the empty ones are dropped. */
  function LinhasPendentes(lead: Lead, pendentes: seq<IdPergunta>, p: Pergunta): seq<string> {
    [ "O lead \"" + lead.nome + "\" ainda não está totalmente qualificado.",
      "Perguntas pendentes: " + Join(NomesPendentes(pendentes), ", ") + ".",
      "Próxima pergunta sugerida: \"" + p.pergunta + "\"",
      LinhaOpcoes(p),
      "Faça a pergunta de forma natural na conversa." ]
  }

  /** `filter(Boolean)` over strings: the non-empty ones, in order. */
  function NaoVazias(ls: seq<string>): (r: seq<string>)
    decreases |ls|
    ensures forall k :: 0 <= k < |r| ==> r[k] != ""
    ensures forall k :: 0 <= k < |ls| && ls[k] != "" ==> ls[k] in r
    ensures Subsequencia(r, ls)
    ensures forall x :: x != "" ==> multiset(r)[x] == multiset(ls)[x]
  {
    if ls == [] then []
    else
      var resto := NaoVazias(ls[1..]);
      assert multiset(ls) == multiset{ls[0]} + multiset(ls[1..]) by { assert ls == [ls[0]] + ls[1..]; }
      if ls[0] != "" then
        assert ([ls[0]] + resto)[1..] == resto;
        assert multiset([ls[0]] + resto) == multiset{ls[0]} + multiset(resto);
        [ls[0]] + resto
      else
        assert resto != [] ==> resto[0] != ls[0];
        resto
  }

  /**
   * `gerarPromptQualificacao`, with `JSON.stringify` passed in as `json`. A qualified lead's
   * prompt carries the encoded interest; otherwise it is the prompt about the first pending
   * question. The prompt is never empty.
   */
  function GerarPromptQualificacao(lead: Lead, json: Option<InteresseLead> -> string): (r: string)
    ensures AnalisarQualificacao(lead).completa ==> Contains(r, json(lead.interesse))
    ensures r != ""
  {
    var a := AnalisarQualificacao(lead);
    if a.completa then PromptQualificado(json(lead.interesse))
    else
      match ProximaPergunta(lead)
      case None => assert false; ""
      case Some(p) => PromptPendente(lead, a.perguntasPendentes, p)
  }

  /**
   * The prompt for a lead still being qualified names the lead, every pending question id,
   * the question about the first pending slot and, when that question has them, its options.
   */
  lemma PromptNomeiaPendentes(lead: Lead, json: Option<InteresseLead> -> string, k: nat)
    requires !AnalisarQualificacao(lead).completa
    requires k < |AnalisarQualificacao(lead).perguntasPendentes|
    ensures ProximaPergunta(lead).Some?
    ensures
      var r := GerarPromptQualificacao(lead, json);
      var p := ProximaPergunta(lead).value;
      Contains(r, lead.nome) && Contains(r, p.pergunta)
      && Contains(r, AnalisarQualificacao(lead).perguntasPendentes[k].Nome())
      && (p.opcoes.Some? ==> Contains(r, Join(p.opcoes.value, ", ")))
  {
  }

  /** The prompt for a qualified lead, around the encoded interest. */
  function PromptQualificado(interesse: string): (r: string)
    ensures Contains(r, interesse) && r != ""
  {
    var pre, pos := "Lead qualificado. Interesse: ", ". Agora busque imóveis compatíveis.";
    ContainsSplice(pre, interesse, pos);
    pre + interesse + pos
  }

  /** The prompt for a lead still being qualified: its non-empty lines, one per line. */
  function PromptPendente(lead: Lead, pendentes: seq<IdPergunta>, p: Pergunta): (r: string)
    ensures Contains(r, lead.nome) && Contains(r, p.pergunta)
    ensures forall k :: 0 <= k < |pendentes| ==> Contains(r, pendentes[k].Nome())
    ensures p.opcoes.Some? ==> Contains(r, Join(p.opcoes.value, ", "))
    ensures r != ""
  {
    var r := Join(NaoVazias(LinhasPendentes(lead, pendentes, p)), "\n");
    PromptPendenteContem(lead, pendentes, p, r);
    r
  }

  /** What the joined lines of a pending prompt contain. */
  lemma PromptPendenteContem(lead: Lead, pendentes: seq<IdPergunta>, p: Pergunta, r: string)
    requires r == Join(NaoVazias(LinhasPendentes(lead, pendentes, p)), "\n")
    ensures Contains(r, lead.nome) && Contains(r, p.pergunta)
    ensures forall k :: 0 <= k < |pendentes| ==> Contains(r, pendentes[k].Nome())
    ensures p.opcoes.Some? ==> Contains(r, Join(p.opcoes.value, ", "))
    ensures r != ""
  {
    var linhas := LinhasPendentes(lead, pendentes, p);
    var ls := NaoVazias(linhas);
    assert linhas[0] != "" && linhas[1] != "" && linhas[2] != "";
    assert linhas[0] in ls && linhas[1] in ls && linhas[2] in ls;
    ContainsSplice("O lead \"", lead.nome, "\" ainda não está totalmente qualificado.");
    JoinContainsIn(ls, "\n", linhas[0], lead.nome);
    ContainsSplice("Próxima pergunta sugerida: \"", p.pergunta, "\"");
    JoinContainsIn(ls, "\n", linhas[2], p.pergunta);
    var nomes := Join(NomesPendentes(pendentes), ", ");
    ContainsSplice("Perguntas pendentes: ", nomes, ".");
    forall k | 0 <= k < |pendentes| ensures Contains(r, pendentes[k].Nome()) {
      JoinContains(NomesPendentes(pendentes), ", ", k);
      ContainsTrans(linhas[1], nomes, pendentes[k].Nome());
      JoinContainsIn(ls, "\n", linhas[1], pendentes[k].Nome());
    }
    if p.opcoes.Some? {
      var opcoes := Join(p.opcoes.value, ", ");
      ContainsSplice("Opções: ", opcoes, "");
      assert linhas[3] == "Opções: " + opcoes + "";
      assert linhas[3] in ls;
      JoinContainsIn(ls, "\n", linhas[3], opcoes);
    }
    JoinContains(ls, "\n", 0);
    assert ls[0] != "";
  }

  // ---------------------------------------------------------------------------------------
  // interpretarPreco

  /** The global replace of `r\$\s*` by "": every "r$", with the `\s` run after it, removed left to right. */
  function SemCifrao(s: string): (r: string)
    decreases |s|
    ensures forall k :: 0 <= k < |r| ==> r[k] in s
  {
    if |s| >= 2 && s[0] == 'r' && s[1] == '$' then
      var t := s[SpaceRunEnd(s, 2)..];
      var r := SemCifrao(t);
      assert forall k :: 0 <= k < |r| ==> r[k] in s by {
        forall k | 0 <= k < |r| ensures r[k] in s {
          var j :| 0 <= j < |t| && t[j] == r[k];
          assert s[SpaceRunEnd(s, 2) + j] == t[j];
        }
      }
      r
    else if s == [] then []
    else
      var r := [s[0]] + SemCifrao(s[1..]);
      assert forall k :: 1 <= k < |r| ==> r[k] in s[1..];
      r
  }

  /** Text without a `$` has nothing to remove. */
  lemma {:induction false} SemCifraoFixo(s: string)
    requires forall k :: 0 <= k < |s| ==> s[k] != '$'
    decreases |s|
    ensures SemCifrao(s) == s
  {
    if s != [] {
      SemCifraoFixo(s[1..]);
    }
  }

  /** `raw`: the text lowercased, without its "r$" markers, trimmed. */
  function Bruto(texto: string): string {
    Trim(SemCifrao(Lower(texto)))
  }

  /**
   * A match of `^([\d.,]+)\s*UNIDADE$` on `raw`, where `unidade` says which words the unit
   * alternative accepts: the captured run of digits, dots and commas. The run is the longest
   * one at the start, since neither `\s` nor a unit word begins with one of its characters.
   */
  function Captura(raw: string, unidade: string -> bool): (g: Option<string>)
    ensures g.Some? ==> g.value != [] && g.value <= raw
    ensures g.Some? ==> forall k :: 0 <= k < |g.value| ==> CaractereNumerico(g.value[k])
  {
    var n := RunEnd(raw, 0, CaractereNumerico);
    if n > 0 && unidade(raw[SpaceRunEnd(raw, n)..]) then Some(raw[..n]) else None
  }

  /** `(mil|k)`. */
  predicate UnidadeMil(w: string) {
    w == "mil" || w == "k"
  }

  /** `(milh[aãoõ]+|mi)`. */
  predicate UnidadeMilhao(w: string) {
    w == "mi" || (|w| >= 5 && w[..4] == "milh" && forall k :: 4 <= k < |w| ==> VogalMilhao(w[k]))
  }

  /** A finite `parseFloat` result scaled by `fator`; NaN gives null. */
  function Escalar(v: Option<real>, fator: real): Option<real> {
    match v
    case Some(x) => Some(x * fator)
    case None => None
  }

  /** The thousands branch: every dot dropped, the first comma read as the decimal point. */
  function LeituraMil(g: string): Option<real> {
    Escalar(ParseFloat(ReplaceFirst(SemPontos(g), ',', '.')), 100000.0)
  }

  /** The millions branch: the dots kept, the first comma read as the decimal point. */
  function LeituraMilhao(g: string): Option<real> {
    Escalar(ParseFloat(ReplaceFirst(g, ',', '.')), 100000000.0)
  }

  /** More than 10000 is reais and becomes centavos; the rest is kept as it is. */
  function EmCentavos(num: real): real {
    if num > 10000.0 then num * 100.0 else num
  }

  /** The bare-number branch: more than 10000 is reais and becomes centavos, the rest is kept. */
  function LeituraDireta(raw: string): Option<real> {
    match ParseFloat(ReplaceFirst(SemPontos(raw), ',', '.'))
    case Some(num) => Some(EmCentavos(num))
    case None => None
  }

  /** The cascade of `interpretarPreco` on `raw`. */
  function InterpretarBruto(raw: string): Option<real> {
    match Captura(raw, UnidadeMil)
    case Some(g) => LeituraMil(g)
    case None =>
      match Captura(raw, UnidadeMilhao)
      case Some(g) => LeituraMilhao(g)
      case None => LeituraDireta(raw)
  }

  /**
   * `interpretarPreco`, in centavos: a number followed by "mil" or "k" is thousands of reais,
   * with every dot dropped and the first comma read as the decimal point; a number followed by
   * "mi" or "milh" and vowels is millions, with the dots kept; a bare number is reais when
   * it exceeds 10000 and is returned as it is otherwise; anything else is null.
   */
  function InterpretarPreco(texto: string): (r: Option<real>)
    ensures SemDigitos(texto) ==> r.None?
  {
    CascataSemDigitos(texto);
    InterpretarBruto(Bruto(texto))
  }

  /** Text already lowercased, without `$`, and not starting or ending with `\s` is its own `raw`. */
  lemma BrutoFixo(s: string)
    requires s != [] && !IsSpace(s[0]) && !IsSpace(s[|s| - 1])
    requires forall k :: 0 <= k < |s| ==> LowerChar(s[k]) == s[k] && s[k] != '$'
    ensures Bruto(s) == s
  {
    LowerFixo(s);
    SemCifraoFixo(s);
    TrimFixo(s);
  }

  /** The capture when the run of digits, dots and commas at the start of `raw` has length `n`. */
  lemma CapturaDe(raw: string, n: nat, unidade: string -> bool)
    requires 0 < n <= |raw|
    requires forall k :: 0 <= k < n ==> CaractereNumerico(raw[k])
    requires n == |raw| || !CaractereNumerico(raw[n])
    ensures Captura(raw, unidade) == if unidade(raw[SpaceRunEnd(raw, n)..]) then Some(raw[..n]) else None
  {
    RunEndIs(raw, 0, n, CaractereNumerico);
  }

  /** A run of digits has no dot and no comma to rewrite, and parses as its value. */
  lemma TextoDeDigitos(d: string)
    requires d != [] && AllDigits(d)
    ensures SemPontos(d) == d && ReplaceFirst(d, ',', '.') == d
    ensures ParseFloat(d) == Some(DigitsValue(d) as real)
  {
    KeepCharsTudo(d, NaoPonto);
    ReplaceFirstAusente(d, ',', '.');
    assert d[0..|d|] == d;
    ParseFloatInteiro(d, |d|);
  }

  /** A run of digits read by the thousands branch. */
  lemma LeituraMilDigitos(d: string)
    requires d != [] && AllDigits(d)
    ensures LeituraMil(d) == Some(DigitsValue(d) as real * 100000.0)
  {
    TextoDeDigitos(d);
  }

  /** A run of digits read by the bare-number branch. */
  lemma LeituraDiretaDigitos(d: string)
    requires d != [] && AllDigits(d)
    ensures LeituraDireta(d) == Some(EmCentavos(DigitsValue(d) as real))
  {
    TextoDeDigitos(d);
  }

  /** Digits followed by "mil" or "k", with or without a space, are their own `raw`. */
  lemma BrutoMil(d: string, u: string)
    requires d != [] && AllDigits(d)
    requires u == "mil" || u == " mil" || u == "k" || u == " k"
    ensures Bruto(d + u) == d + u
  {
    var s := d + u;
    assert forall k :: 0 <= k < |d| ==> s[k] == d[k];
    assert forall k :: |d| <= k < |s| ==> s[k] == u[k - |d|];
    BrutoFixo(s);
  }

  /**
   * The capture when `raw` is a run of `n` digits, dots and commas, then the `\s` run up to `e`,
   * then a word that starts with neither.
   */
  lemma CapturaComUnidade(raw: string, n: nat, e: nat, unidade: string -> bool)
    requires 0 < n <= e < |raw|
    requires forall k :: 0 <= k < n ==> CaractereNumerico(raw[k])
    requires forall k :: n <= k < e ==> IsSpace(raw[k])
    requires !IsSpace(raw[e]) && !CaractereNumerico(raw[e])
    ensures Captura(raw, unidade) == if unidade(raw[e..]) then Some(raw[..n]) else None
  {
    CapturaDe(raw, n, unidade);
    RunEndIs(raw, n, e, IsSpace);
  }

  /** Digits followed by "mil" or "k", with or without a space, are captured by the thousands pattern. */
  lemma CapturaMil(d: string, u: string)
    requires d != [] && AllDigits(d)
    requires u == "mil" || u == " mil" || u == "k" || u == " k"
    ensures Captura(d + u, UnidadeMil) == Some(d)
  {
    var s := d + u;
    var e := if u[0] == ' ' then |d| + 1 else |d|;
    assert forall k :: 0 <= k < |d| ==> s[k] == d[k];
    assert s[e..] == (if u[0] == ' ' then u[1..] else u);
    assert s[..|d|] == d;
    CapturaComUnidade(s, |d|, e, UnidadeMil);
  }

  /** Digits followed by "mil" or "k", with or without a space: thousands of reais, in centavos. */
  lemma PrecoEmMil(d: string, u: string)
    requires d != [] && AllDigits(d)
    requires u == "mil" || u == " mil" || u == "k" || u == " k"
    ensures InterpretarPreco(d + u) == Some(DigitsValue(d) as real * 100000.0)
  {
    BrutoMil(d, u);
    CapturaMil(d, u);
    LeituraMilDigitos(d);
  }

  /** A bare run of digits is its own `raw` and is captured by neither unit pattern. */
  lemma CapturaDireta(d: string)
    requires d != [] && AllDigits(d)
    ensures Bruto(d) == d
    ensures Captura(d, UnidadeMil).None? && Captura(d, UnidadeMilhao).None?
  {
    BrutoFixo(d);
    CapturaDe(d, |d|, UnidadeMil);
    CapturaDe(d, |d|, UnidadeMilhao);
    RunEndIs(d, |d|, |d|, IsSpace);
  }

  /**
   * A bare run of digits: returned as it is when it is at most 10000, multiplied by 100 (reais
   * to centavos) when it is more.
   */
  lemma PrecoDireto(d: string)
    requires d != [] && AllDigits(d)
    ensures InterpretarPreco(d) == Some(EmCentavos(DigitsValue(d) as real))
  {
    CapturaDireta(d);
    LeituraDiretaDigitos(d);
  }

  /** `raw` of a digit-free text is digit-free. */
  lemma BrutoSemDigitos(texto: string)
    requires SemDigitos(texto)
    ensures SemDigitos(Bruto(texto))
  {
    LowerSemDigitos(texto);
    var l := Lower(texto);
    var c := SemCifrao(l);
    assert SemDigitos(c) by {
      forall k | 0 <= k < |c| ensures !IsDigit(c[k]) {
        var j :| 0 <= j < |l| && l[j] == c[k];
      }
    }
    TrimSemDigitos(c);
  }

  /** The comma-to-point replacement of a digit-free text parses as NaN. */
  lemma CadeiaSemDigitos(s: string)
    requires SemDigitos(s)
    ensures ParseFloat(ReplaceFirst(s, ',', '.')) == None
  {
    ReplaceFirstSemDigitos(s, ',', '.');
  }

  /** Every branch reads a digit-free text as null. */
  lemma LeiturasSemDigitos(s: string)
    requires SemDigitos(s)
    ensures LeituraMil(s) == None && LeituraMilhao(s) == None && LeituraDireta(s) == None
  {
    CadeiaSemDigitos(s);
    KeepCharsSemDigitos(s, NaoPonto);
    CadeiaSemDigitos(SemPontos(s));
  }

  /** On text without a digit every step of the cascade is null. */
  lemma CascataSemDigitos(texto: string)
    ensures SemDigitos(texto) ==> InterpretarBruto(Bruto(texto)) == None
  {
    if SemDigitos(texto) {
      BrutoSemDigitos(texto);
      var raw := Bruto(texto);
      match Captura(raw, UnidadeMil)
      case Some(g) =>
        PrefixoSemDigitos(raw, g);
        LeiturasSemDigitos(g);
      case None =>
        match Captura(raw, UnidadeMilhao)
        case Some(g) =>
          PrefixoSemDigitos(raw, g);
          LeiturasSemDigitos(g);
        case None =>
          LeiturasSemDigitos(raw);
    }
  }

  /** A prefix of a digit-free text is digit-free. */
  lemma PrefixoSemDigitos(s: string, p: string)
    requires SemDigitos(s) && p <= s
    ensures SemDigitos(p)
  {
    assert forall k :: 0 <= k < |p| ==> p[k] == s[k];
  }

  /** Text of digits, dots and commas that `LowerChar` leaves alone. */
  predicate Numerico(g: string) {
    g != [] && forall k :: 0 <= k < |g| ==> CaractereNumerico(g[k]) && LowerChar(g[k]) == g[k]
  }

  /** Digits, a point and digits are numeric text. */
  lemma NumericoComPonto(a: string, b: string)
    requires a != [] && AllDigits(a) && AllDigits(b)
    ensures Numerico(a + "." + b)
  {
    var g := a + "." + b;
    assert forall k :: 0 <= k < |a| ==> g[k] == a[k];
    assert forall k :: |a| < k < |g| ==> g[k] == b[k - |a| - 1];
  }

  /** When `raw` is captured by the thousands pattern, the price is the thousands reading. */
  lemma InterpretarMil(texto: string, g: string)
    requires Captura(Bruto(texto), UnidadeMil) == Some(g)
    ensures InterpretarPreco(texto) == LeituraMil(g)
  {
  }

  /** When `raw` is captured by the millions pattern only, the price is the millions reading. */
  lemma InterpretarMilhao(texto: string, g: string)
    requires Captura(Bruto(texto), UnidadeMil).None? && Captura(Bruto(texto), UnidadeMilhao) == Some(g)
    ensures InterpretarPreco(texto) == LeituraMilhao(g)
  {
  }

  /** When `raw` is captured by neither unit pattern, the price is the bare-number reading. */
  lemma InterpretarDireto(texto: string)
    requires Captura(Bruto(texto), UnidadeMil).None? && Captura(Bruto(texto), UnidadeMilhao).None?
    ensures InterpretarPreco(texto) == LeituraDireta(Bruto(texto))
  {
  }

  /**
   * Numeric text, a space and a lowercase word without `$` that does not end in `\s`: its own
   * `raw`.
   */
  lemma BrutoComPalavra(g: string, w: string)
    requires Numerico(g) && w != [] && !IsSpace(w[|w| - 1])
    requires forall k :: 0 <= k < |w| ==> LowerChar(w[k]) == w[k] && w[k] != '$'
    ensures Bruto(g + (" " + w)) == g + (" " + w)
  {
    var s := g + (" " + w);
    assert forall k :: 0 <= k < |g| ==> s[k] == g[k];
    assert forall k :: |g| < k < |s| ==> s[k] == w[k - |g| - 1];
    BrutoFixo(s);
  }

  /** Numeric text, a space and a word that starts with neither `\s` nor `[\d.,]`: the word is the unit. */
  lemma CapturaComPalavra(g: string, w: string, unidade: string -> bool)
    requires Numerico(g) && w != [] && !IsSpace(w[0]) && !CaractereNumerico(w[0])
    ensures Captura(g + (" " + w), unidade) == if unidade(w) then Some(g) else None
  {
    var s := g + (" " + w);
    assert forall k :: 0 <= k < |g| ==> s[k] == g[k];
    assert s[|g|] == ' ' && s[|g| + 1] == w[0];
    assert s[|g| + 1..] == w && s[..|g|] == g;
    CapturaComUnidade(s, |g|, |g| + 1, unidade);
  }

  /** "milh" followed by vowels fits `milh[aãoõ]+`. */
  lemma MilhComVogais(w: string)
    requires |w| >= 5 && w[0] == 'm' && w[1] == 'i' && w[2] == 'l' && w[3] == 'h'
    requires forall k :: 4 <= k < |w| ==> VogalMilhao(w[k])
    ensures UnidadeMilhao(w)
  {
    assert w[..4] == "milh";
  }

  /** "milhão" is a lowercase word without `$` that fits the millions unit and not the thousands one. */
  lemma Milhao()
    ensures " " + "milhão" == " milhão"
    ensures var w := "milhão"; w != [] && !IsSpace(w[0]) && !CaractereNumerico(w[0]) && !IsSpace(w[|w| - 1])
    ensures forall k :: 0 <= k < |"milhão"| ==> LowerChar("milhão"[k]) == "milhão"[k] && "milhão"[k] != '$'
    ensures !UnidadeMil("milhão") && UnidadeMilhao("milhão")
  {
    MilhComVogais("milhão");
  }

  /** Numeric text and "milhão" is its own `raw`, and only the millions pattern captures it, taking the numeric text. */
  lemma CapturaMilhao(g: string)
    requires Numerico(g)
    ensures Bruto(g + " milhão") == g + " milhão"
    ensures Captura(g + " milhão", UnidadeMil).None?
    ensures Captura(g + " milhão", UnidadeMilhao) == Some(g)
  {
    Milhao();
    BrutoComPalavra(g, "milhão");
    CapturaComPalavra(g, "milhão", UnidadeMil);
    CapturaComPalavra(g, "milhão", UnidadeMilhao);
  }

  /**
   * Numeric text followed by "milhão": millions of reais, in centavos, of what `parseFloat`
   * reads once the first comma is a point; the dots are kept, so "1.2 milhão" is 1.2 million
   * (`ParseFloatFracionario`) and 120 000 000 centavos.
   */
  lemma PrecoEmMilhoes(g: string, v: real)
    requires Numerico(g) && ParseFloat(ReplaceFirst(g, ',', '.')) == Some(v)
    ensures InterpretarPreco(g + " milhão") == Some(v * 100000000.0)
  {
    CapturaMilhao(g);
    InterpretarMilhao(g + " milhão", g);
    LeituraMilhaoDe(g, v);
  }

  /** The millions reading of text that `parseFloat` reads as `v`, once its comma is a point. */
  lemma LeituraMilhaoDe(g: string, v: real)
    requires ParseFloat(ReplaceFirst(g, ',', '.')) == Some(v)
    ensures LeituraMilhao(g) == Some(v * 100000000.0)
  {
  }

  /** Lowercasing "R$ " before a text `LowerChar` leaves alone lowercases the marker only. */
  lemma LowerReais(t: string)
    requires forall k :: 0 <= k < |t| ==> LowerChar(t[k]) == t[k]
    ensures Lower("R$ " + t) == "r$ " + t
  {
    assert forall k :: 3 <= k < |"R$ " + t| ==> ("R$ " + t)[k] == t[k - 3];
  }

  /** "r$ " before a text that does not start with `\s` and holds no `$` is removed. */
  lemma SemCifraoReais(t: string)
    requires t != [] && !IsSpace(t[0])
    requires forall k :: 0 <= k < |t| ==> t[k] != '$'
    ensures SemCifrao("r$ " + t) == t
  {
    var l := "r$ " + t;
    assert SpaceRunEnd(l, 2) == 3 by {
      assert l[2] == ' ' && l[3] == t[0];
      RunEndIs(l, 2, 3, IsSpace);
    }
    assert SemCifrao(l) == SemCifrao(t) by {
      assert l[0] == 'r' && l[1] == '$' && l[3..] == t;
    }
    SemCifraoFixo(t);
  }

  /** "R$ " before a text without capitals, `$` or leading and trailing `\s` is removed by `raw`. */
  lemma BrutoEmReais(t: string)
    requires t != [] && !IsSpace(t[0]) && !IsSpace(t[|t| - 1])
    requires forall k :: 0 <= k < |t| ==> LowerChar(t[k]) == t[k] && t[k] != '$'
    ensures Bruto("R$ " + t) == t
  {
    LowerReais(t);
    SemCifraoReais(t);
    TrimFixo(t);
  }

  /** Numeric text alone is captured by neither unit pattern. */
  lemma SemUnidade(t: string)
    requires Numerico(t)
    ensures Captura(t, UnidadeMil).None? && Captura(t, UnidadeMilhao).None?
  {
    CapturaDe(t, |t|, UnidadeMil);
    CapturaDe(t, |t|, UnidadeMilhao);
    RunEndIs(t, |t|, |t|, IsSpace);
  }

  /** The bare-number branch drops a thousands dot. */
  lemma LeituraDiretaMilhar(a: string, b: string)
    requires a != [] && AllDigits(a) && b != [] && AllDigits(b)
    ensures LeituraDireta(a + "." + b) == LeituraDireta(a + b)
  {
    assert a + "." + b == a + ("." + b);
    KeepCharsConcat(a, "." + b, NaoPonto);
    assert KeepChars("." + b, NaoPonto) == KeepChars(b, NaoPonto);
    KeepCharsConcat(a, b, NaoPonto);
  }

  /** Two runs of digits side by side are a run of digits. */
  lemma DigitosConcat(a: string, b: string)
    requires AllDigits(a) && AllDigits(b)
    ensures AllDigits(a + b)
  {
    assert forall k :: 0 <= k < |a| ==> (a + b)[k] == a[k];
    assert forall k :: |a| <= k < |a + b| ==> (a + b)[k] == b[k - |a|];
  }

  /**
   * "R$ ", digits, a dot and digits: the marker and the thousands dot go, and the number is
   * read as a bare number ("R$ 350.000" is 35 000 000 centavos).
   */
  lemma PrecoEmReais(a: string, b: string)
    requires a != [] && AllDigits(a) && b != [] && AllDigits(b)
    ensures InterpretarPreco("R$ " + a + "." + b) == Some(EmCentavos(DigitsValue(a + b) as real))
  {
    var t := a + "." + b;
    NumericoComPonto(a, b);
    assert "R$ " + a + "." + b == "R$ " + t;
    BrutoEmReais(t);
    SemUnidade(t);
    LeituraDiretaMilhar(a, b);
    DigitosConcat(a, b);
    LeituraDiretaDigitos(a + b);
  }

  /** Text without the dots and commas a number can hold. */
  predicate SemSeparadores(s: string) {
    forall k :: 0 <= k < |s| ==> s[k] != '.' && s[k] != ','
  }

  /** A space before a word without dots and commas adds none. */
  lemma EspacoSemSeparadores(w: string)
    requires SemSeparadores(w)
    ensures SemSeparadores(" " + w)
  {
    assert forall k :: 0 < k < |" " + w| ==> (" " + w)[k] == w[k - 1];
  }

  /** The bare-number branch reads digits followed by a text that cannot continue a number as the digits alone. */
  lemma LeituraDiretaComResto(d: string, resto: string)
    requires d != [] && AllDigits(d)
    requires SemSeparadores(resto)
    requires resto == [] || !ContinuesNumber(resto[0])
    ensures LeituraDireta(d + resto) == Some(EmCentavos(DigitsValue(d) as real))
  {
    DigitosSemSeparadores(d, resto);
    TextoSemSeparadores(d + resto);
    ParseFloatDigits(d, resto);
  }

  /** Digits before a text without separators leave none. */
  lemma DigitosSemSeparadores(d: string, resto: string)
    requires AllDigits(d) && SemSeparadores(resto)
    ensures SemSeparadores(d + resto)
  {
    assert forall k :: 0 <= k < |d| ==> (d + resto)[k] == d[k];
    assert forall k :: |d| <= k < |d + resto| ==> (d + resto)[k] == resto[k - |d|];
  }

  /** Without dots and commas, the bare-number branch has nothing to drop or rewrite. */
  lemma TextoSemSeparadores(s: string)
    requires SemSeparadores(s)
    ensures ReplaceFirst(SemPontos(s), ',', '.') == s
  {
    KeepCharsTudo(s, NaoPonto);
    ReplaceFirstAusente(s, ',', '.');
  }

  /**
   * Digits, a space and a word that is neither unit: the word is ignored and the digits are
   * read as a bare number.
   */
  lemma PrecoComPalavra(d: string, w: string)
    requires d != [] && AllDigits(d)
    requires w != [] && !IsSpace(w[0]) && !CaractereNumerico(w[0]) && !IsSpace(w[|w| - 1])
    requires forall k :: 0 <= k < |w| ==> LowerChar(w[k]) == w[k] && w[k] != '$' && w[k] != '.' && w[k] != ','
    requires !UnidadeMil(w) && !UnidadeMilhao(w)
    ensures InterpretarPreco(d + (" " + w)) == Some(EmCentavos(DigitsValue(d) as real))
  {
    assert Numerico(d);
    BrutoComPalavra(d, w);
    CapturaComPalavra(d, w, UnidadeMil);
    CapturaComPalavra(d, w, UnidadeMilhao);
    InterpretarDireto(d + (" " + w));
    assert SemSeparadores(w);
    EspacoSemSeparadores(w);
    LeituraDiretaComResto(d, " " + w);
  }

  /** "milhões" is a lowercase word without `$`, dots or commas, and it is neither unit. */
  lemma Milhoes()
    ensures " " + "milhões" == " milhões"
    ensures var w := "milhões"; w != [] && !IsSpace(w[0]) && !CaractereNumerico(w[0]) && !IsSpace(w[|w| - 1])
    ensures forall k :: 0 <= k < |"milhões"| ==> LowerChar("milhões"[k]) == "milhões"[k] && "milhões"[k] != '$' && "milhões"[k] != '.' && "milhões"[k] != ','
    ensures !UnidadeMil("milhões") && !UnidadeMilhao("milhões")
  {
    assert !VogalMilhao("milhões"[5]);
  }

  /**
   * Digits followed by "milhões": the plural does not fit `milh[aãoõ]+` up to the end, so the
   * text falls through to the bare-number branch and only the leading number is read
   * ("2 milhões" is 2).
   */
  lemma PrecoMilhoesPlural(d: string)
    requires d != [] && AllDigits(d)
    ensures InterpretarPreco(d + " milhões") == Some(EmCentavos(DigitsValue(d) as real))
  {
    Milhoes();
    PrecoComPalavra(d, "milhões");
  }
}
