/**
 * Automatic follow-up of leads: how many days of silence each pipeline stage tolerates, the
 * date of the next follow-up, the reminder message, and the batch that gives every open lead
 * without a follow-up date its first one.
 */
module Followup {
  import opened Wrappers
  import opened Text
  import opened Sql
  import opened CrmSchema
  import opened CrmTables

  /** One day in milliseconds. */
  const Dia: int := 86_400_000

  /** REGRAS_FOLLOWUP: the days without an answer a stage tolerates; 0 for a closed deal. */
  function DiasSemResposta(s: StatusLead): (d: nat)
    ensures d == 0 <==> s.Terminal()
    ensures d <= 3
  {
    match s
    case Novo => 1
    case ContatoInicial => 2
    case Qualificado => 3
    case VisitaAgendada => 1
    case Proposta => 2
    case Negociacao => 3
    case FechadoGanho => 0
    case FechadoPerdido => 0
  }

  /** `lead.dataUltimoContato ?? lead.criadoEm` */
  function BaseFollowup(lead: Lead): int {
    lead.dataUltimoContato.GetOr(lead.criadoEm)
  }

  /**
   * `calcularProximoFollowup`: no follow-up for a closed deal; otherwise one to three whole
   * days after the last contact, or after the creation of a lead never contacted.
   */
  function CalcularProximoFollowup(lead: Lead): (r: Option<int>)
    ensures r.None? <==> lead.status.Terminal()
    ensures r.Some? ==> BaseFollowup(lead) + Dia <= r.value <= BaseFollowup(lead) + 3 * Dia
    ensures r.Some? ==> (r.value - BaseFollowup(lead)) % Dia == 0
  {
    var dias := DiasSemResposta(lead.status);
    if dias == 0 then None else Some(BaseFollowup(lead) + dias * Dia)
  }

  /** The follow-up date depends on the stage and the base date only. */
  lemma FollowupSoDependeDaBase(a: Lead, b: Lead)
    requires a.status == b.status && BaseFollowup(a) == BaseFollowup(b)
    ensures CalcularProximoFollowup(a) == CalcularProximoFollowup(b)
  {
  }

  /** The text before and after the lead's name in the message for a stage. */
  function Modelo(s: StatusLead): (string, string) {
    match s
    case Novo => ("Olá ", "! Sou o corretor responsável. Vi que você entrou em contato recentemente. Como posso ajudar na busca do imóvel ideal para você?")
    case ContatoInicial => ("Olá ", "! Gostaria de saber se você ainda está buscando imóveis. Posso te ajudar a encontrar opções que combinem com seu perfil.")
    case Qualificado => ("Oi ", "! Tenho algumas opções de imóveis que podem te interessar. Posso te enviar os detalhes?")
    case VisitaAgendada => ("Oi ", "! Lembrete: temos uma visita agendada. Confirma sua presença?")
    case Proposta => ("", ", alguma dúvida sobre a proposta que enviamos? Estou à disposição para esclarecer.")
    case Negociacao => ("", ", como está a análise? Estou disponível para ajustar os termos se necessário.")
    case _ => ("Olá ", "! Como posso ajudar?")
  }

  /**
   * `gerarMensagemFollowup`: a message per open stage and a generic one for closed deals, each
   * with the lead's name in it and made of the stage's template around that name.
   */
  function GerarMensagemFollowup(lead: Lead): (r: string)
    ensures Contains(r, lead.nome)
    ensures StartsWith(r, Modelo(lead.status).0) && EndsWith(r, Modelo(lead.status).1)
  {
    var (antes, depois) := Modelo(lead.status);
    var r := antes + lead.nome + depois;
    ContainsSplice(antes, lead.nome, depois);
    assert r[0..|antes|] == antes;
    assert r[|r| - |depois|..] == depois;
    r
  }

  lemma SpliceDistingue(antes: string, x: string, y: string, depois: string)
    requires |x| == |y| && x != y
    ensures antes + x + depois != antes + y + depois
  {
    assert (antes + x + depois)[|antes|..|antes| + |x|] == x;
    assert (antes + y + depois)[|antes|..|antes| + |y|] == y;
  }

  /** Two leads at the same stage with different names of the same length get different messages. */
  lemma MensagemDistingueNomes(a: Lead, b: Lead)
    requires a.status == b.status && |a.nome| == |b.nome| && a.nome != b.nome
    ensures GerarMensagemFollowup(a) != GerarMensagemFollowup(b)
  {
    var (antes, depois) := Modelo(a.status);
    SpliceDistingue(antes, a.nome, b.nome, depois);
  }

  /** `getLeadsPendentesFollowup`: the store's due leads, with the clock reading passed in. */
  function GetLeadsPendentesFollowup(store: CrmStore, agora: int): (r: seq<Lead>)
    reads store
    ensures forall l :: l in r <==> l in store.leads && FollowupVencido(l, agora)
    ensures forall i, j :: 0 <= i < j < |r| ==> ChaveFollowup(r[i]) <= ChaveFollowup(r[j])
  {
    store.LeadsParaFollowup(agora)
  }

  // ---------------------------------------------------------------------------------------
  // The batch

  /** An entry of the batch's report. */
  datatype Detalhe = Detalhe(leadId: string, nome: string, proximoFollowup: int)

  /** `{ limite: 200 }`: the batch looks at the 200 most recently updated leads. */
  const FiltroAgendamento := FiltroLeads(None, None, Some(200))

  /** An open lead with no follow-up date: the kind the batch schedules. */
  predicate Elegivel(l: Lead)
    ensures Elegivel(l) ==> CalcularProximoFollowup(l).Some?
  {
    !l.status.Terminal() && l.dataProximoFollowup.None?
  }

  function DetalheDe(l: Lead): Detalhe
    requires Elegivel(l)
  {
    Detalhe(l.id, l.nome, CalcularProximoFollowup(l).value)
  }

  /** The report the batch produces for a listing: one entry per eligible lead, in listing order. */
  function Programados(ls: seq<Lead>): (r: seq<Detalhe>)
    decreases |ls|
    ensures |r| <= |ls|
  {
    if ls == [] then []
    else Programados(ls[..|ls| - 1]) + (if Elegivel(ls[|ls| - 1]) then [DetalheDe(ls[|ls| - 1])] else [])
  }

  /** Every entry of the report is that of an eligible lead of the listing. */
  lemma {:induction false} ProgramadosOrigem(ls: seq<Lead>, k: nat)
    requires k < |Programados(ls)|
    decreases |ls|
    ensures exists j :: 0 <= j < |ls| && Elegivel(ls[j]) && Programados(ls)[k] == DetalheDe(ls[j])
  {
    var init := ls[..|ls| - 1];
    if k < |Programados(init)| {
      ProgramadosOrigem(init, k);
      var j :| 0 <= j < |init| && Elegivel(init[j]) && Programados(init)[k] == DetalheDe(init[j]);
      assert init[j] == ls[j];
    } else {
      assert Programados(ls)[k] == DetalheDe(ls[|ls| - 1]);
    }
  }

  /** Every eligible lead of the listing has its entry in the report. */
  lemma {:induction false} ProgramadosCompleto(ls: seq<Lead>, j: nat)
    requires j < |ls| && Elegivel(ls[j])
    decreases |ls|
    ensures DetalheDe(ls[j]) in Programados(ls)
  {
    var init := ls[..|ls| - 1];
    if j < |init| {
      ProgramadosCompleto(init, j);
      assert init[j] == ls[j];
    }
  }

  lemma ProgramadosPasso(ls: seq<Lead>, i: nat)
    requires i < |ls|
    ensures Programados(ls[..i + 1]) == Programados(ls[..i]) + (if Elegivel(ls[i]) then [DetalheDe(ls[i])] else [])
  {
    assert ls[..i + 1][..i] == ls[..i];
  }

  /** The entry of the report for lead `id`, if any. */
  function DetalhePara(ds: seq<Detalhe>, id: string): (r: Option<Detalhe>)
    decreases |ds|
    ensures r.Some? ==> r.value in ds && r.value.leadId == id
    ensures r.None? ==> forall k :: 0 <= k < |ds| ==> ds[k].leadId != id
  {
    if ds == [] then None
    else if ds[0].leadId == id then Some(ds[0])
    else DetalhePara(ds[1..], id)
  }

  lemma {:induction false} DetalheParaAcrescentar(ds: seq<Detalhe>, d: Detalhe, id: string)
    decreases |ds|
    ensures DetalhePara(ds + [d], id) ==
      if DetalhePara(ds, id).Some? then DetalhePara(ds, id)
      else if d.leadId == id then Some(d)
      else None
  {
    if ds != [] {
      assert (ds + [d])[1..] == ds[1..] + [d];
      DetalheParaAcrescentar(ds[1..], d, id);
    }
  }

  /** The row a lead has after a batch that reported `ds` ran at `agora`. */
  function Agendado(l: Lead, ds: seq<Detalhe>, agora: int): Lead {
    match DetalhePara(ds, l.id)
    case Some(d) => l.(dataProximoFollowup := Some(d.proximoFollowup), atualizadoEm := agora)
    case None => l
  }

  /** A listing drawn from a table with unique keys has unique keys. */
  lemma ListagemIdsUnicos(leads: seq<Lead>, r: seq<Lead>)
    requires IdsLeadsUnicos(leads) && multiset(r) <= multiset(leads)
    ensures IdsLeadsUnicos(r)
  {
    assert SemRepeticao(leads);
    SubmultisetSemRepeticao(r, leads);
    forall i, j | 0 <= i < j < |r| ensures r[i].id != r[j].id {
      assert r[i] in multiset(leads) && r[j] in multiset(leads);
      var a :| 0 <= a < |leads| && leads[a] == r[i];
      var b :| 0 <= b < |leads| && leads[b] == r[j];
      assert a != b;
    }
  }

  /** Every entry of a report names a lead of the listing. */
  lemma ProgramadosIds(ls: seq<Lead>, id: string)
    requires forall j :: 0 <= j < |ls| ==> ls[j].id != id
    ensures DetalhePara(Programados(ls), id).None?
  {
    var r := Programados(ls);
    forall k | 0 <= k < |r| ensures r[k].leadId != id {
      ProgramadosOrigem(ls, k);
    }
  }

  /** A listing without eligible leads produces an empty report. */
  lemma {:induction false} ProgramadosVazio(ls: seq<Lead>)
    requires forall j :: 0 <= j < |ls| ==> !Elegivel(ls[j])
    decreases |ls|
    ensures Programados(ls) == []
  {
    if ls != [] {
      ProgramadosVazio(ls[..|ls| - 1]);
    }
  }

  /** One scheduled lead: the row of `lead` gets its follow-up, every other row stays as it was. */
  lemma PassoAgendamento(inicial: seq<Lead>, atual: seq<Lead>, ds: seq<Detalhe>, lead: Lead, j: nat, agora: int)
    requires IdsLeadsUnicos(inicial) && atual == Aplicar(inicial, ds, agora) && j < |inicial|
    requires lead in inicial && Elegivel(lead) && inicial[j].id == lead.id
    requires DetalhePara(ds, lead.id).None?
    ensures atual[j] == lead
    ensures atual[j := Mesclar(atual[j], SemAlteracao.(dataProximoFollowup := Set(CalcularProximoFollowup(lead))), agora)]
      == Aplicar(inicial, ds + [DetalheDe(lead)], agora)
  {
    var m :| 0 <= m < |inicial| && inicial[m] == lead;
    assert m == j;
    var d := DetalheDe(lead);
    forall k | 0 <= k < |inicial|
      ensures DetalhePara(ds + [d], inicial[k].id) ==
        if k == j then Some(d) else DetalhePara(ds, inicial[k].id)
    {
      DetalheParaAcrescentar(ds, d, inicial[k].id);
    }
  }

  /** The table after a batch that reported `ds` ran at `agora`. */
  function Aplicar(leads: seq<Lead>, ds: seq<Detalhe>, agora: int): (r: seq<Lead>)
    ensures |r| == |leads|
    ensures IdsLeads(r) == IdsLeads(leads)
  {
    seq(|leads|, k requires 0 <= k < |leads| => Agendado(leads[k], ds, agora))
  }

  /** One iteration of the batch that schedules `lead`. */
  method AgendarLead(store: CrmStore, ghost inicial: seq<Lead>, ghost ds: seq<Detalhe>, lead: Lead, agora: int)
    returns (detalhe: Detalhe)
    requires store.Valid() && IdsLeadsUnicos(inicial) && store.leads == Aplicar(inicial, ds, agora)
    requires lead in inicial && Elegivel(lead) && DetalhePara(ds, lead.id).None?
    modifies store
    ensures detalhe == DetalheDe(lead)
    ensures store.Valid() && store.leads == Aplicar(inicial, ds + [detalhe], agora)
    ensures store.interacoes == old(store.interacoes) && store.visitas == old(store.visitas)
  {
    ghost var m :| 0 <= m < |inicial| && inicial[m] == lead;
    assert IdsLeads(store.leads)[m] == lead.id;
    var j := IndiceLead(store.leads, lead.id).value;
    assert inicial[j].id == IdsLeads(inicial)[j] == IdsLeads(store.leads)[j] == lead.id;
    PassoAgendamento(inicial, store.leads, ds, lead, j, agora);
    var proximo := CalcularProximoFollowup(lead);
    var _ := store.AtualizarLead(lead.id, SemAlteracao.(dataProximoFollowup := Set(proximo)), agora);
    detalhe := Detalhe(lead.id, lead.nome, proximo.value);
  }

  /** The loop of the batch over a listing drawn from the table `inicial`. */
  method AgendarListagem(store: CrmStore, ghost inicial: seq<Lead>, leads: seq<Lead>, agora: int)
    returns (detalhes: seq<Detalhe>)
    requires store.Valid() && store.leads == inicial && IdsLeadsUnicos(inicial)
    requires IdsLeadsUnicos(leads) && forall k :: 0 <= k < |leads| ==> leads[k] in inicial
    modifies store
    ensures store.Valid()
    ensures detalhes == Programados(leads)
    ensures store.leads == Aplicar(inicial, detalhes, agora)
    ensures store.interacoes == old(store.interacoes) && store.visitas == old(store.visitas)
  {
    detalhes := [];
    assert leads[..0] == [];
    assert Aplicar(inicial, [], agora) == inicial;
    var i := 0;
    while i < |leads|
      invariant 0 <= i <= |leads|
      invariant store.Valid() && store.leads == Aplicar(inicial, detalhes, agora)
      invariant detalhes == Programados(leads[..i])
      invariant store.interacoes == old(store.interacoes) && store.visitas == old(store.visitas)
    {
      var lead := leads[i];
      ProgramadosPasso(leads, i);
      // Closed deals and leads that already have a date are skipped.
      if !lead.status.Terminal() && lead.dataProximoFollowup.None? {
        var proximo := CalcularProximoFollowup(lead);
        if proximo.Some? {
          assert forall k :: 0 <= k < i ==> leads[..i][k].id != lead.id;
          ProgramadosIds(leads[..i], lead.id);
          var detalhe := AgendarLead(store, inicial, detalhes, lead, agora);
          detalhes := detalhes + [detalhe];
        }
      }
      i := i + 1;
    }
    assert leads[..|leads|] == leads;
  }

  /**
   * `agendarFollowupsAutomaticos`, with the clock reading passed in: every eligible lead among
   * the 200 most recently updated gets the follow-up date `calcularProximoFollowup` gives it,
   * and the report lists exactly those leads; every other row is left as it was.
   */
  method AgendarFollowupsAutomaticos(store: CrmStore, agora: int) returns (agendados: nat, detalhes: seq<Detalhe>)
    requires store.Valid()
    modifies store
    ensures store.Valid()
    ensures agendados == |detalhes|
    ensures detalhes == Programados(ListagemLeads(old(store.leads), FiltroAgendamento))
    ensures store.leads == Aplicar(old(store.leads), detalhes, agora)
    ensures store.interacoes == old(store.interacoes) && store.visitas == old(store.visitas)
  {
    var leads := store.ListarLeads(FiltroAgendamento);
    ListagemIdsUnicos(store.leads, leads);
    detalhes := AgendarListagem(store, store.leads, leads, agora);
    agendados := |detalhes|;
  }

  /** After the batch, no lead it could see is still eligible. */
  lemma AgendadoNaoElegivel(inicial: seq<Lead>, agora: int, k: nat)
    requires IdsLeadsUnicos(inicial) && k < |inicial| && |inicial| <= 200
    ensures !Elegivel(Agendado(inicial[k], Programados(ListagemLeads(inicial, FiltroAgendamento)), agora))
  {
    var ls := ListagemLeads(inicial, FiltroAgendamento);
    var l := inicial[k];
    if Elegivel(l) {
      ListagemSemFiltro(inicial, 200);
      assert l in multiset(ls);
      ElegivelProgramado(ls, l);
    }
  }

  /** An eligible lead of the listing has an entry in the report. */
  lemma ElegivelProgramado(ls: seq<Lead>, l: Lead)
    requires l in ls && Elegivel(l)
    ensures DetalhePara(Programados(ls), l.id).Some?
  {
    var j :| 0 <= j < |ls| && ls[j] == l;
    ProgramadosCompleto(ls, j);
    var ds := Programados(ls);
    var n :| 0 <= n < |ds| && ds[n] == DetalheDe(l);
    assert ds[n].leadId == l.id;
  }

  /**
   * Running the batch twice in a row schedules nothing the second time, as long as every lead
   * fits in the listing of 200.
   */
  lemma AgendamentoIdempotente(inicial: seq<Lead>, agora: int)
    requires IdsLeadsUnicos(inicial) && |inicial| <= 200
    ensures
      var depois := Aplicar(inicial, Programados(ListagemLeads(inicial, FiltroAgendamento)), agora);
      Programados(ListagemLeads(depois, FiltroAgendamento)) == []
  {
    var depois := Aplicar(inicial, Programados(ListagemLeads(inicial, FiltroAgendamento)), agora);
    forall k | 0 <= k < |depois| ensures !Elegivel(depois[k]) {
      AgendadoNaoElegivel(inicial, agora, k);
    }
    ProgramadosDeParte(ListagemLeads(depois, FiltroAgendamento), depois);
  }

  /** A listing drawn from a table without eligible leads produces an empty report. */
  lemma ProgramadosDeParte(ls: seq<Lead>, xs: seq<Lead>)
    requires forall k :: 0 <= k < |xs| ==> !Elegivel(xs[k])
    requires forall j :: 0 <= j < |ls| ==> ls[j] in xs
    ensures Programados(ls) == []
  {
    ProgramadosVazio(ls);
  }

  /** A listing with unique keys produces a report with one entry per lead at most. */
  lemma {:induction false} ProgramadosIdsUnicos(ls: seq<Lead>)
    requires IdsLeadsUnicos(ls)
    decreases |ls|
    ensures forall a, b :: 0 <= a < b < |Programados(ls)| ==> Programados(ls)[a].leadId != Programados(ls)[b].leadId
  {
    if ls != [] {
      var init := ls[..|ls| - 1];
      var x := ls[|ls| - 1];
      ProgramadosIdsUnicos(init);
      var ds := Programados(init);
      forall a | 0 <= a < |ds| ensures ds[a].leadId != x.id {
        ProgramadosOrigem(init, a);
      }
    }
  }

  lemma {:induction false} DetalheParaUnico(ds: seq<Detalhe>, n: nat)
    requires n < |ds|
    requires forall a, b :: 0 <= a < b < |ds| ==> ds[a].leadId != ds[b].leadId
    decreases |ds|
    ensures DetalhePara(ds, ds[n].leadId) == Some(ds[n])
  {
    if n > 0 {
      assert ds[0].leadId != ds[n].leadId;
      assert ds[1..][n - 1] == ds[n];
      DetalheParaUnico(ds[1..], n - 1);
    }
  }

  /** Each entry of the report holds the follow-up date the batch wrote to that lead's row. */
  lemma DetalheGravado(inicial: seq<Lead>, agora: int, n: nat, k: nat)
    requires IdsLeadsUnicos(inicial) && k < |inicial|
    requires n < |Programados(ListagemLeads(inicial, FiltroAgendamento))|
    requires inicial[k].id == Programados(ListagemLeads(inicial, FiltroAgendamento))[n].leadId
    ensures
      var ds := Programados(ListagemLeads(inicial, FiltroAgendamento));
      Aplicar(inicial, ds, agora)[k].dataProximoFollowup == Some(ds[n].proximoFollowup)
  {
    var ls := ListagemLeads(inicial, FiltroAgendamento);
    ListagemIdsUnicos(inicial, ls);
    ProgramadosIdsUnicos(ls);
    DetalheParaUnico(Programados(ls), n);
  }

  /** The batch never touches a closed lead or a lead that already has a follow-up date. */
  lemma AgendamentoPreserva(inicial: seq<Lead>, agora: int, k: nat)
    requires IdsLeadsUnicos(inicial) && k < |inicial| && !Elegivel(inicial[k])
    ensures Aplicar(inicial, Programados(ListagemLeads(inicial, FiltroAgendamento)), agora)[k] == inicial[k]
  {
    var ls := ListagemLeads(inicial, FiltroAgendamento);
    SemDetalheInelegivel(inicial, ls, k);
  }

  /** A lead that is not eligible has no entry in the report of a listing drawn from its table. */
  lemma SemDetalheInelegivel(inicial: seq<Lead>, ls: seq<Lead>, k: nat)
    requires IdsLeadsUnicos(inicial) && k < |inicial| && !Elegivel(inicial[k])
    requires forall j :: 0 <= j < |ls| ==> ls[j] in inicial
    ensures DetalhePara(Programados(ls), inicial[k].id).None?
  {
    var ds := Programados(ls);
    var l := inicial[k];
    if DetalhePara(ds, l.id).Some? {
      var n :| 0 <= n < |ds| && ds[n] == DetalhePara(ds, l.id).value;
      ProgramadosOrigem(ls, n);
      assert false;
    }
  }
}
