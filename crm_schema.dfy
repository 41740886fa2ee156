/**
 * The lead record of the CRM and its sales pipeline: the eight stages a lead moves through,
 * the fixed table of allowed moves between them, and the one-line summary of a lead.
 * Timestamps are whole milliseconds since the epoch.
 */
module CrmSchema {
  import opened Wrappers
  import opened Text

  /** STATUS_LEAD, in its declared order. */
  datatype StatusLead =
    | Novo
    | ContatoInicial
    | Qualificado
    | VisitaAgendada
    | Proposta
    | Negociacao
    | FechadoGanho
    | FechadoPerdido
  {
    /** The tag the status is stored and shown as. */
    function Nome(): string {
      match this
      case Novo => "novo"
      case ContatoInicial => "contato_inicial"
      case Qualificado => "qualificado"
      case VisitaAgendada => "visita_agendada"
      case Proposta => "proposta"
      case Negociacao => "negociacao"
      case FechadoGanho => "fechado_ganho"
      case FechadoPerdido => "fechado_perdido"
    }

    /** Position in STATUS_LEAD. */
    function Indice(): nat {
      match this
      case Novo => 0
      case ContatoInicial => 1
      case Qualificado => 2
      case VisitaAgendada => 3
      case Proposta => 4
      case Negociacao => 5
      case FechadoGanho => 6
      case FechadoPerdido => 7
    }

    /** A closed deal, won or lost. */
    predicate Terminal() {
      this == FechadoGanho || this == FechadoPerdido
    }
  }

  const StatusLeadTodos: seq<StatusLead> :=
    [Novo, ContatoInicial, Qualificado, VisitaAgendada, StatusLead.Proposta, Negociacao, FechadoGanho, FechadoPerdido]

  lemma StatusLeadTodosOrdem()
    ensures |StatusLeadTodos| == 8
    ensures forall i :: 0 <= i < 8 ==> StatusLeadTodos[i].Indice() == i
    ensures forall s: StatusLead :: s in StatusLeadTodos
  {
    forall s: StatusLead ensures s in StatusLeadTodos {
      assert StatusLeadTodos[s.Indice()] == s;
    }
  }

  /** ORIGEM_LEAD. */
  datatype OrigemLead = Whatsapp | Instagram | Indicacao | Portal | Site | Telefone | Presencial

  /**
   * What the lead is looking for. Prices are in centavos; `negocio` is meant to be
   * "venda", "aluguel" or "ambos", but the agent tools write whatever string they are given.
   */
  datatype InteresseLead = InteresseLead(
    tipoImovel: Option<seq<string>>,
    bairros: Option<seq<string>>,
    cidades: Option<seq<string>>,
    precoMin: Option<real>,
    precoMax: Option<real>,
    quartosMin: Option<int>,
    negocio: Option<string>,
    observacoes: Option<string>)

  /** An interest object with no key at all, `{}`. */
  const InteresseVazio := InteresseLead(None, None, None, None, None, None, None, None)

  /** The `tipo` of an interaction. */
  datatype TipoInteracao = Mensagem | Ligacao | Visita | Proposta | Email | Nota {
    function Nome(): string {
      match this
      case Mensagem => "mensagem"
      case Ligacao => "ligacao"
      case Visita => "visita"
      case Proposta => "proposta"
      case Email => "email"
      case Nota => "nota"
    }
  }

  datatype Interacao = Interacao(
    id: string,
    leadId: string,
    tipo: TipoInteracao,
    descricao: string,
    data: int,
    canal: Option<string>)

  datatype Lead = Lead(
    id: string,
    nome: string,
    telefone: Option<string>,
    email: Option<string>,
    origem: OrigemLead,
    status: StatusLead,
    interesse: Option<InteresseLead>,
    dataUltimoContato: Option<int>,
    dataProximoFollowup: Option<int>,
    motivoPerda: Option<string>,
    corretorId: Option<string>,
    imoveisInteresse: Option<seq<string>>,
    criadoEm: int,
    atualizadoEm: int,
    observacoes: Option<string>)

  /** TRANSICOES_PIPELINE: the stages a lead may move to, in the table's own order. */
  function Transicoes(s: StatusLead): (r: seq<StatusLead>)
    ensures s !in r
    ensures FechadoPerdido in r <==> !s.Terminal()
    ensures FechadoGanho in r <==> s == Negociacao
    ensures Novo in r <==> s == FechadoPerdido
    ensures s == FechadoGanho ==> r == []
    ensures s == FechadoPerdido ==> r == [Novo]
    ensures forall i, j :: 0 <= i < j < |r| ==> r[i] != r[j]
  {
    match s
    case Novo => [ContatoInicial, FechadoPerdido]
    case ContatoInicial => [Qualificado, FechadoPerdido]
    case Qualificado => [VisitaAgendada, StatusLead.Proposta, FechadoPerdido]
    case VisitaAgendada => [StatusLead.Proposta, Qualificado, FechadoPerdido]
    case Proposta => [Negociacao, Qualificado, FechadoPerdido]
    case Negociacao => [FechadoGanho, FechadoPerdido, StatusLead.Proposta]
    case FechadoGanho => []
    case FechadoPerdido => [Novo]
  }

  /** `transicaoValida`: membership in the adjacency list of the current stage. */
  predicate TransicaoValida(atual: StatusLead, proximo: StatusLead) {
    proximo in Transicoes(atual)
  }

  /** The pipeline's shape, as the table states it. */
  lemma PropriedadesPipeline()
    ensures forall s :: !TransicaoValida(s, s)
    ensures forall t :: !TransicaoValida(FechadoGanho, t)
    ensures forall t :: TransicaoValida(FechadoPerdido, t) <==> t == Novo
    ensures forall s: StatusLead :: !s.Terminal() <==> TransicaoValida(s, FechadoPerdido)
    ensures forall s :: TransicaoValida(s, FechadoGanho) <==> s == Negociacao
    ensures !TransicaoValida(Novo, Qualificado)
  {
  }

  /** `lead.interesse?.negocio` is truthy. */
  predicate TemNegocio(lead: Lead) {
    lead.interesse.Some? && Preenchido(lead.interesse.value.negocio)
  }

  /** `lead.interesse?.bairros?.length` is truthy. */
  predicate TemBairros(lead: Lead) {
    lead.interesse.Some? && lead.interesse.value.bairros.Some? && |lead.interesse.value.bairros.value| > 0
  }

  /** Where the status sits among the parts: right after the name and the phone, if any. */
  function PosicaoStatus(lead: Lead): nat {
    if Preenchido(lead.telefone) then 2 else 1
  }

  /**
   * The parts `resumoLead` joins, in order: the name, the phone when it is set, the status in
   * brackets, the business type when it is set, and the neighbourhoods joined by ", " when
   * there are any.
   */
  function PartesResumo(lead: Lead): (partes: seq<string>)
    ensures |partes| == PosicaoStatus(lead) + 1 + (if TemNegocio(lead) then 1 else 0)
                        + (if TemBairros(lead) then 1 else 0)
    ensures partes[0] == lead.nome
    ensures Preenchido(lead.telefone) ==> partes[1] == lead.telefone.value
    ensures partes[PosicaoStatus(lead)] == "[" + lead.status.Nome() + "]"
    ensures TemNegocio(lead) ==> partes[PosicaoStatus(lead) + 1] == lead.interesse.value.negocio.value
    ensures TemBairros(lead) ==> partes[|partes| - 1] == Join(lead.interesse.value.bairros.value, ", ")
  {
    [lead.nome]
    + (if Preenchido(lead.telefone) then [lead.telefone.value] else [])
    + ["[" + lead.status.Nome() + "]"]
    + (if TemNegocio(lead) then [lead.interesse.value.negocio.value] else [])
    + (if TemBairros(lead) then [Join(lead.interesse.value.bairros.value, ", ")] else [])
  }

  /**
   * `resumoLead`: the lead's name first, then " | " and the other parts: the status in
   * brackets, and the phone, the business type and the joined neighbourhoods when each is set.
   */
  function ResumoLead(lead: Lead): (r: string)
    ensures StartsWith(r, lead.nome + " | ")
    ensures Contains(r, "[" + lead.status.Nome() + "]")
    ensures Preenchido(lead.telefone) ==> Contains(r, lead.telefone.value)
    ensures TemNegocio(lead) ==> Contains(r, lead.interesse.value.negocio.value)
    ensures TemBairros(lead) ==> Contains(r, Join(lead.interesse.value.bairros.value, ", "))
  {
    var partes := PartesResumo(lead);
    JoinHead(partes, " | ");
    JoinContemPartes(partes, " | ");
    Join(partes, " | ")
  }

  /** A lead with only a name and a status is summarised as "nome | [status]". */
  lemma ResumoMinimo(lead: Lead)
    requires !Preenchido(lead.telefone) && lead.interesse.None?
    ensures ResumoLead(lead) == lead.nome + " | " + "[" + lead.status.Nome() + "]"
  {
    var partes := PartesResumo(lead);
    assert partes == [lead.nome, "[" + lead.status.Nome() + "]"];
    var st := "[" + lead.status.Nome() + "]";
    assert partes[1..] == [st];
    assert Join(partes[1..], " | ") == st;
    assert ResumoLead(lead) == Join(partes, " | ") == lead.nome + " | " + st;
  }
}
