/**
 * Automatic lead capture: the hook the auto-reply pipeline calls for every inbound message.
 * A contact whose phone is already known gets one more interaction on its lead; an unknown
 * contact becomes a new lead in stage `novo`, with its first interaction. The store, the fresh
 * ids and the clock reading are parameters.
 */
module Capture {
  import opened Wrappers
  import opened Text
  import opened CrmSchema
  import opened CrmTables

  /** `InboundContact`: the sender of a message as the channel reports it. */
  datatype Contato = Contato(telefone: string, nome: Option<string>, canal: string, mensagem: Option<string>)

  /** `{ lead, isNew }`, the result of a capture. */
  datatype Captura = Captura(lead: Lead, isNew: bool)

  /**
   * `mapCanalParaOrigem`: the channel, case-folded, names the origin of the lead; only
   * Instagram is told apart, and every other channel counts as WhatsApp.
   */
  function CanalParaOrigem(canal: string): (o: OrigemLead)
    ensures o == Instagram <==> Lower(canal) == "instagram"
    ensures o == Instagram || o == Whatsapp
  {
    var c := Lower(canal);
    if c == "whatsapp" then Whatsapp else if c == "instagram" then Instagram else Whatsapp
  }

  /** The origin does not depend on how the channel name is capitalised. */
  lemma CanalSemCaixa(canal: string)
    ensures CanalParaOrigem(Lower(canal)) == CanalParaOrigem(canal)
  {
    LowerIdempotente(canal);
  }

  /** The data `criarLead` receives for an unknown contact; the store fills id and timestamps. */
  function NovoLead(contato: Contato): (l: Lead)
    ensures l.telefone == Some(contato.telefone) && l.status == Novo
    ensures l.origem == CanalParaOrigem(contato.canal)
    ensures contato.nome.Some? ==> l.nome == contato.nome.value
    ensures contato.nome.None? ==> l.nome == "Contato " + contato.telefone
  {
    Lead("", contato.nome.GetOr("Contato " + contato.telefone), Some(contato.telefone), None,
      CanalParaOrigem(contato.canal), Novo, None, None, None, None, None, None, 0, 0, None)
  }

  /** The interaction recorded for a message, with `padrao` as its text when the message has none. */
  function RegistroMensagem(leadId: string, contato: Contato, padrao: string, agora: int): (i: Interacao)
    ensures i.leadId == leadId && i.tipo == Mensagem && i.data == agora && i.canal == Some(contato.canal)
    ensures i.descricao == if contato.mensagem.Some? then contato.mensagem.value else padrao
  {
    Interacao("", leadId, Mensagem, contato.mensagem.GetOr(padrao), agora, Some(contato.canal))
  }

  /**
   * The leads table after an interaction of date `data` is recorded for lead `id` at time
   * `agora`: that lead's last contact and update time move, and no other row changes.
   */
  function Contatado(leads: seq<Lead>, id: string, data: int, agora: int): (r: seq<Lead>)
    ensures |r| == |leads| && IdsLeads(r) == IdsLeads(leads)
    ensures forall k :: 0 <= k < |r| ==> r[k].telefone == leads[k].telefone
    ensures forall k :: 0 <= k < |r| && leads[k].id != id ==> r[k] == leads[k]
  {
    match IndiceLead(leads, id)
    case None => leads
    case Some(i) =>
      IdsLeadsSubstituir(leads, i, leads[i].(dataUltimoContato := Some(data), atualizadoEm := agora));
      leads[i := leads[i].(dataUltimoContato := Some(data), atualizadoEm := agora)]
  }

  /** What `registrarInteracao` promises about the leads table is what `Contatado` computes. */
  lemma RegistroContata(antes: seq<Lead>, depois: seq<Lead>, id: string, data: int, agora: int)
    requires match IndiceLead(antes, id)
      case None => depois == antes
      case Some(i) => depois == antes[i := antes[i].(dataUltimoContato := Some(data), atualizadoEm := agora)]
    ensures depois == Contatado(antes, id, data, agora)
  {
  }

  /** A lead in the table whose phone matches is one the phone lookup can return. */
  lemma TelefoneReencontrado(leads: seq<Lead>, k: nat, telefone: string)
    requires k < |leads| && leads[k].telefone.Some?
    requires EndsWith(TelefoneLimpo(leads[k].telefone.value), SoDigitos(telefone))
    ensures LeadPorTelefone(leads, telefone).Some?
  {
    assert leads[k] in leads;
  }

  /**
   * A phone that has, after one of its digits, a character the lookup neither strips nor
   * keeps (anything but a digit, '-', ' ' or '+', such as the ")" of "(11) 98765-4321") is not
   * found again by its own number: the stored number keeps that character among its digits,
   * the number asked for is the digits alone, and the suffix comparison fails. A contact that
   * writes its number that way is captured as a new lead on every message. A parenthesis in
   * front of every digit, as in "(11987654321", does not have this effect.
   */
  lemma SimboloNaoReencontrado(leads: seq<Lead>, l: Lead, a: string, b: string)
    requires l.telefone == Some(a + b)
    requires exists k :: 0 <= k < |a| && IsDigit(a[k])
    requires exists k :: 0 <= k < |b| && !IsDigit(b[k]) && !Separador(b[k])
    ensures LeadPorTelefone(leads, a + b) != Some(l)
    ensures LeadPorTelefone([l], a + b).None?
  {
    var t := a + b;
    var ca := TelefoneLimpo(a);
    var cb := TelefoneLimpo(b);
    KeepCharsConcat(a, b, NaoSeparador);
    var c := TelefoneLimpo(t);
    assert c == ca + cb;
    var ka :| 0 <= ka < |a| && IsDigit(a[ka]);
    var kb :| 0 <= kb < |b| && !IsDigit(b[kb]) && !Separador(b[kb]);
    KeepCharsMantem(a, NaoSeparador, ka);
    KeepCharsMantem(b, NaoSeparador, kb);
    var i :| 0 <= i < |ca| && ca[i] == a[ka];
    var j :| 0 <= j < |cb| && cb[j] == b[kb];
    assert c[i] == a[ka] && c[|ca| + j] == b[kb];
    SoDigitosDoLimpo(t);
    FimComSeusDigitos(c);
    assert !EndsWith(c, SoDigitos(t));
  }

  /** The known-phone branch: one interaction for lead `l`, which keeps matching the phone. */
  method ContatoConhecido(store: CrmStore, contato: Contato, l: Lead, idInteracao: string, agora: int)
    requires store.Valid() && l in store.leads
    modifies store
    ensures store.Valid() && store.visitas == old(store.visitas)
    ensures store.leads == Contatado(old(store.leads), l.id, agora, agora)
    ensures store.interacoes == old(store.interacoes) + [RegistroMensagem(l.id, contato, "Mensagem recebida", agora).(id := idInteracao)]
  {
    var k :| 0 <= k < |store.leads| && store.leads[k] == l;
    assert IdsLeads(store.leads)[k] == l.id;
    ghost var antes := store.leads;
    var registrada := store.RegistrarInteracao(RegistroMensagem(l.id, contato, "Mensagem recebida", agora), idInteracao, agora);
    RegistroContata(antes, store.leads, l.id, agora, agora);
  }

  /** The unknown-phone branch: the new lead, created from the contact, and its first interaction. */
  method ContatoNovo(store: CrmStore, contato: Contato, idLead: string, idInteracao: string, agora: int)
    returns (lead: Lead)
    requires store.Valid() && idLead !in IdsLeads(store.leads)
    modifies store
    ensures store.Valid() && store.visitas == old(store.visitas)
    ensures lead == NovoLead(contato).(id := idLead, criadoEm := agora, atualizadoEm := agora)
    ensures store.leads == Contatado(old(store.leads) + [lead], idLead, agora, agora)
    ensures store.interacoes == old(store.interacoes) + [RegistroMensagem(idLead, contato, "Primeiro contato", agora).(id := idInteracao)]
  {
    lead := store.CriarLead(NovoLead(contato), idLead, agora);
    ghost var antes := store.leads;
    assert IdsLeads(antes)[|antes| - 1] == idLead;
    var registrada := store.RegistrarInteracao(RegistroMensagem(lead.id, contato, "Primeiro contato", agora), idInteracao, agora);
    RegistroContata(antes, store.leads, lead.id, agora, agora);
  }

  /**
   * `captureLeadFromContact`. A known phone: the interaction "Mensagem recebida" (or the
   * message) goes to the lead found, which is returned as it was before, with `isNew` false.
   * An unknown phone: a new lead is created from the contact and gets the interaction
   * "Primeiro contato" (or the message); the lead is returned as created, before recording
   * the interaction moved its last contact, with `isNew` true. No visit changes. A
   * number that the lookup can recognise is recognised on the next message.
   */
  method CapturarLead(store: CrmStore, contato: Contato, idLead: string, idInteracao: string, agora: int)
    returns (r: Captura)
    requires store.Valid() && idLead !in IdsLeads(store.leads)
    modifies store
    ensures store.Valid() && store.visitas == old(store.visitas)
    ensures match old(store.BuscarLeadPorTelefone(contato.telefone))
      case Some(l) =>
        r == Captura(l, false)
        && store.leads == Contatado(old(store.leads), l.id, agora, agora)
        && store.interacoes == old(store.interacoes) + [RegistroMensagem(l.id, contato, "Mensagem recebida", agora).(id := idInteracao)]
      case None =>
        r == Captura(NovoLead(contato).(id := idLead, criadoEm := agora, atualizadoEm := agora), true)
        && store.leads == Contatado(old(store.leads) + [r.lead], idLead, agora, agora)
        && store.interacoes == old(store.interacoes) + [RegistroMensagem(idLead, contato, "Primeiro contato", agora).(id := idInteracao)]
    ensures EndsWith(TelefoneLimpo(contato.telefone), SoDigitos(contato.telefone)) ==>
      store.BuscarLeadPorTelefone(contato.telefone).Some?
  {
    var existente := store.BuscarLeadPorTelefone(contato.telefone);
    ghost var antes := store.leads;
    if existente.Some? {
      var l := existente.value;
      ghost var k :| 0 <= k < |antes| && antes[k] == l;
      ContatoConhecido(store, contato, l, idInteracao, agora);
      assert store.leads[k].telefone == antes[k].telefone;
      TelefoneReencontrado(store.leads, k, contato.telefone);
      r := Captura(l, false);
    } else {
      var lead := ContatoNovo(store, contato, idLead, idInteracao, agora);
      if EndsWith(TelefoneLimpo(contato.telefone), SoDigitos(contato.telefone)) {
        assert store.leads[|antes|].telefone == Some(contato.telefone);
        TelefoneReencontrado(store.leads, |antes|, contato.telefone);
      }
      r := Captura(lead, true);
    }
  }
}
