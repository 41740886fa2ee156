/**
 * The sales pipeline as a state machine over the CRM store: the moves a stage allows, and the
 * transition that checks a move, updates the lead and records a note about it.
 */
module Pipeline {
  import opened Wrappers
  import opened Text
  import opened Sql
  import opened CrmSchema
  import opened CrmTables
  import opened Followup

  /** Filtering the stage list keeps exactly the stages `p` accepts, in `STATUS_LEAD` order. */
  lemma FiltrarEstagios(p: StatusLead -> bool)
    ensures forall t :: t in Filtrar(StatusLeadTodos, p) <==> p(t)
    ensures forall i, j :: 0 <= i < j < |Filtrar(StatusLeadTodos, p)| ==>
      Filtrar(StatusLeadTodos, p)[i].Indice() < Filtrar(StatusLeadTodos, p)[j].Indice()
  {
    StatusLeadTodosOrdem();
    FiltrarCatalogo(StatusLeadTodos, p, (t: StatusLead) => t.Indice());
  }

  /** `transicoesDisponiveis`: the stages a lead at `s` may move to, in STATUS_LEAD order. */
  function TransicoesDisponiveis(s: StatusLead): (r: seq<StatusLead>)
    ensures forall t :: t in r <==> TransicaoValida(s, t)
    ensures forall i, j :: 0 <= i < j < |r| ==> r[i].Indice() < r[j].Indice()
  {
    var p := (t: StatusLead) => TransicaoValida(s, t);
    FiltrarEstagios(p);
    Filtrar(StatusLeadTodos, p)
  }

  /** A sequence of stages in which every step is an allowed move. */
  predicate Caminho(ss: seq<StatusLead>) {
    forall i :: 0 <= i < |ss| - 1 ==> TransicaoValida(ss[i], ss[i + 1])
  }

  /** The stages a lead passes through before it is qualified. */
  predicate AntesDaQualificacao(s: StatusLead) {
    s == Novo || s == ContatoInicial || s == FechadoPerdido
  }

  /** Until it reaches `qualificado`, a lead that starts before qualification stays there. */
  lemma {:induction false} SemQualificacao(ss: seq<StatusLead>)
    requires Caminho(ss) && |ss| > 0 && AntesDaQualificacao(ss[0]) && Qualificado !in ss
    decreases |ss|
    ensures forall i :: 0 <= i < |ss| ==> AntesDaQualificacao(ss[i])
  {
    if |ss| > 1 {
      var init := ss[..|ss| - 1];
      assert Caminho(init) by {
        forall i | 0 <= i < |init| - 1 ensures TransicaoValida(init[i], init[i + 1]) {
          assert init[i] == ss[i] && init[i + 1] == ss[i + 1];
        }
      }
      assert Qualificado !in init by {
        forall i | 0 <= i < |init| ensures init[i] != Qualificado {
          assert init[i] == ss[i];
        }
      }
      SemQualificacao(init);
      assert AntesDaQualificacao(ss[|ss| - 2]) by {
        assert init[|ss| - 2] == ss[|ss| - 2];
      }
      assert TransicaoValida(ss[|ss| - 2], ss[|ss| - 1]);
      forall i | 0 <= i < |ss| ensures AntesDaQualificacao(ss[i]) {
        if i < |ss| - 1 {
          assert init[i] == ss[i];
        }
      }
    }
  }

  /**
   * No stage can be skipped on the way to a won deal: a path from `novo` that ends in
   * `fechado_ganho` goes through `qualificado`, and its last two steps before the win are
   * `proposta` and `negociacao`, in that order, somewhere along it.
   */
  lemma FunilCompleto(ss: seq<StatusLead>)
    requires Caminho(ss) && |ss| > 0 && ss[0] == Novo && ss[|ss| - 1] == FechadoGanho
    ensures Qualificado in ss
    ensures |ss| >= 2 && ss[|ss| - 2] == Negociacao
    ensures exists k :: 0 < k < |ss| && ss[k] == Negociacao && ss[k - 1] == StatusLead.Proposta
  {
    if Qualificado !in ss {
      SemQualificacao(ss);
      assert false;
    }
    assert |ss| >= 2;
    assert TransicaoValida(ss[|ss| - 2], ss[|ss| - 1]);
    var k := Primeiro(ss, (s: StatusLead) => s == Negociacao).value;
    assert k > 0;
    assert TransicaoValida(ss[k - 1], ss[k]);
    assert ss[k - 1] != Negociacao;
  }

  /** The event `executarTransicao` reports, dated at the clock reading of the call. */
  datatype TransicaoEvento = TransicaoEvento(
    leadId: string,
    de: StatusLead,
    para: StatusLead,
    timestamp: int,
    motivo: Option<string>)

  /** `{ ok: true, evento }` or `{ ok: false, erro }`. */
  datatype Resultado = Ok(evento: TransicaoEvento) | Erro(erro: string)

  const LeadNaoEncontrado := "Lead não encontrado"

  function ErroTransicao(de: StatusLead, para: StatusLead): (r: string)
    ensures Contains(r, de.Nome()) && Contains(r, para.Nome())
    ensures StartsWith(r, "Transição inválida: ")
  {
    var pre := "Transição inválida: ";
    ContainsSplice(pre, de.Nome(), " → " + para.Nome());
    assert pre + de.Nome() + " → " + para.Nome() == pre + de.Nome() + (" → " + para.Nome());
    ContainsSplice(pre + de.Nome() + " → ", para.Nome(), "");
    assert pre + de.Nome() + " → " + para.Nome() == pre + de.Nome() + " → " + para.Nome() + "";
    var r := pre + de.Nome() + " → " + para.Nome();
    assert r[0..|pre|] == pre;
    r
  }

  /** The note's text: both stages, and the reason in parentheses when one is given. */
  function DescricaoTransicao(de: StatusLead, para: StatusLead, motivo: Option<string>): (r: string)
    ensures StartsWith(r, "Status alterado: " + de.Nome() + " → " + para.Nome())
    ensures Preenchido(motivo) ==> EndsWith(r, " (" + motivo.value + ")")
  {
    var pre := "Status alterado: " + de.Nome() + " → " + para.Nome();
    var suf := if Preenchido(motivo) then " (" + motivo.value + ")" else "";
    assert (pre + suf)[0..|pre|] == pre;
    assert (pre + suf)[|pre + suf| - |suf|..] == suf;
    pre + suf
  }

  /** The "nota" interaction a transition records, before the store gives it its id. */
  function NotaTransicao(leadId: string, de: StatusLead, para: StatusLead, motivo: Option<string>, agora: int): Interacao {
    Interacao("", leadId, Nota, DescricaoTransicao(de, para, motivo), agora, None)
  }

  /**
   * The lead after a successful transition: the new status; the loss reason stored and the
   * follow-up cleared when the deal is lost with a reason; the follow-up cleared when it is won;
   * for an open stage, the follow-up `calcularProximoFollowup` gives the lead at the new stage
   * from its last contact before the transition; and last contact and update time at `agora`,
   * from the note. Every other field stays as it was.
   */
  function LeadAposTransicao(lead: Lead, novo: StatusLead, motivo: Option<string>, agora: int): (r: Lead)
    ensures r == lead.(status := novo, motivoPerda := r.motivoPerda, dataProximoFollowup := r.dataProximoFollowup,
                       dataUltimoContato := Some(agora), atualizadoEm := agora)
    ensures !novo.Terminal() ==>
      r.dataProximoFollowup == CalcularProximoFollowup(lead.(status := novo)) && r.motivoPerda == lead.motivoPerda
    ensures !novo.Terminal() ==> r.dataProximoFollowup == Some(BaseFollowup(lead) + DiasSemResposta(novo) * Dia)
    ensures novo == FechadoGanho ==> r.dataProximoFollowup == None && r.motivoPerda == lead.motivoPerda
    ensures novo == FechadoPerdido && Preenchido(motivo) ==> r.motivoPerda == motivo && r.dataProximoFollowup == None
    ensures novo == FechadoPerdido && !Preenchido(motivo) ==>
      r.motivoPerda == lead.motivoPerda && r.dataProximoFollowup == lead.dataProximoFollowup
  {
    Mesclar(lead, PatchDaTransicao(lead, novo, motivo), agora).(dataUltimoContato := Some(agora), atualizadoEm := agora)
  }

  /** The fields a transition writes to the lead, before the note updates the contact time. */
  function PatchDaTransicao(lead: Lead, novo: StatusLead, motivo: Option<string>): LeadPatch {
    var perdidoComMotivo := novo == FechadoPerdido && Preenchido(motivo);
    SemAlteracao.(
      status := Set(novo),
      motivoPerda := if perdidoComMotivo then Set(motivo) else Keep,
      dataProximoFollowup :=
        if perdidoComMotivo || novo == FechadoGanho then Set(None)
        else if !novo.Terminal() then Set(CalcularProximoFollowup(lead.(status := novo)))
        else Keep)
  }

  /** The side effects of a move, built field by field as `executarTransicao` does. */
  method AlteracoesDaTransicao(lead: Lead, novo: StatusLead, motivo: Option<string>) returns (updates: LeadPatch)
    ensures updates == PatchDaTransicao(lead, novo, motivo)
  {
    updates := SemAlteracao.(status := Set(novo));
    if novo == FechadoPerdido && Preenchido(motivo) {
      updates := updates.(motivoPerda := Set(motivo), dataProximoFollowup := Set(None));
    }
    if novo == FechadoGanho {
      updates := updates.(dataProximoFollowup := Set(None));
    }
    if novo != FechadoGanho && novo != FechadoPerdido {
      var proximo := CalcularProximoFollowup(lead.(status := novo));
      if proximo.Some? {
        updates := updates.(dataProximoFollowup := Set(proximo));
      }
    }
  }

  /** A closed deal is never due for a follow-up, whatever the clock says. */
  lemma FechadoNuncaVence(lead: Lead, novo: StatusLead, motivo: Option<string>, agora: int, t: int)
    requires novo.Terminal()
    ensures !FollowupVencido(LeadAposTransicao(lead, novo, motivo, agora), t)
  {
  }

  /**
   * `executarTransicao`, with the store, the clock reading and the note's fresh id passed in.
   * An unknown lead or a move the table does not allow is refused and changes nothing.
   * Otherwise the lead becomes `LeadAposTransicao` of itself, exactly one note is appended,
   * and the event reports the old and the new stage.
   */
  method ExecutarTransicao(store: CrmStore, leadId: string, novo: StatusLead, motivo: Option<string>,
                           agora: int, interacaoId: string) returns (r: Resultado)
    requires store.Valid()
    modifies store
    ensures store.Valid()
    ensures store.visitas == old(store.visitas)
    ensures match old(IndiceLead(store.leads, leadId))
      case None =>
        r == Erro(LeadNaoEncontrado) && store.leads == old(store.leads) && store.interacoes == old(store.interacoes)
      case Some(i) =>
        var lead := old(store.leads[i]);
        if !TransicaoValida(lead.status, novo) then
          r == Erro(ErroTransicao(lead.status, novo))
          && store.leads == old(store.leads) && store.interacoes == old(store.interacoes)
        else
          r == Ok(TransicaoEvento(leadId, lead.status, novo, agora, motivo))
          && store.leads == old(store.leads)[i := LeadAposTransicao(lead, novo, motivo, agora)]
          && store.interacoes == old(store.interacoes) + [NotaTransicao(leadId, lead.status, novo, motivo, agora).(id := interacaoId)]
  {
    var encontrado := store.BuscarLeadPorId(leadId);
    if encontrado.None? {
      return Erro(LeadNaoEncontrado);
    }
    var lead := encontrado.value;
    ghost var i := IndiceLead(store.leads, leadId).value;
    assert store.leads[i] == lead;
    if !TransicaoValida(lead.status, novo) {
      return Erro(ErroTransicao(lead.status, novo));
    }
    var evento := TransicaoEvento(leadId, lead.status, novo, agora, motivo);

    var updates := AlteracoesDaTransicao(lead, novo, motivo);
    var _ := store.AtualizarLead(leadId, updates, agora);
    var _ := store.RegistrarInteracao(NotaTransicao(leadId, evento.de, evento.para, motivo, evento.timestamp), interacaoId, agora);
    r := Ok(evento);
  }
}
