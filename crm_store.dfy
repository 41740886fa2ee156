/**
 * The CRM's three tables (leads, interactions, visits) held in memory, in insertion order,
 * with the queries and updates the SQL of the lead store performs on them. The clock and the
 * fresh UUIDs are parameters. The lead row mapping is modelled separately and shown to lose
 * nothing, which is why the table can hold `Lead` values directly.
 */
module CrmTables {
  import opened Wrappers
  import opened Text
  import opened Sql
  import opened CrmSchema
  import opened VisitaSchema

  /**
   * The outcome of a write the foreign keys guard (`PRAGMA foreign_keys = ON`): the value the
   * method returns, or the `FOREIGN KEY constraint failed` error SQLite throws, which the
   * store lets propagate and which leaves the tables as they were.
   */
  datatype Escrita<T> = Escrito(valor: T) | ChaveEstrangeiraViolada

  // ---------------------------------------------------------------------------------------
  // Rows

  /** A JSON text column: `JSON.stringify` of a value, which `JSON.parse` reads back. */
  datatype Json<T> = Json(decoded: T)

  /** A row of the `leads` table; `None` is SQL NULL. */
  datatype LeadRow = LeadRow(
    id: string,
    nome: string,
    telefone: Option<string>,
    email: Option<string>,
    origem: OrigemLead,
    status: StatusLead,
    interesse: Option<Json<InteresseLead>>,
    dataUltimoContato: Option<int>,
    dataProximoFollowup: Option<int>,
    motivoPerda: Option<string>,
    corretorId: Option<string>,
    imoveisInteresse: Option<Json<seq<string>>>,
    observacoes: Option<string>,
    criadoEm: int,
    atualizadoEm: int)

  function Codificar<T>(x: Option<T>): Option<Json<T>> {
    match x
    case Some(v) => Some(Json(v))
    case None => None
  }

  function Decodificar<T>(x: Option<Json<T>>): Option<T> {
    match x
    case Some(j) => Some(j.decoded)
    case None => None
  }

  /** `leadToRow`: absent optional fields become NULL, the two structured fields JSON text. */
  function LeadToRow(l: Lead): (row: LeadRow)
    ensures LeadFromRow(row) == l
  {
    LeadRow(l.id, l.nome, l.telefone, l.email, l.origem, l.status, Codificar(l.interesse),
      l.dataUltimoContato, l.dataProximoFollowup, l.motivoPerda, l.corretorId,
      Codificar(l.imoveisInteresse), l.observacoes, l.criadoEm, l.atualizadoEm)
  }

  /** `leadFromRow`: NULL columns become absent fields, JSON columns are parsed. */
  function LeadFromRow(row: LeadRow): Lead {
    Lead(row.id, row.nome, row.telefone, row.email, row.origem, row.status, Decodificar(row.interesse),
      row.dataUltimoContato, row.dataProximoFollowup, row.motivoPerda, row.corretorId,
      Decodificar(row.imoveisInteresse), row.criadoEm, row.atualizadoEm, row.observacoes)
  }

  /** Every row, read and written back, is the same row: the mapping loses nothing either way. */
  lemma LeadRowVoltaEIda(row: LeadRow)
    ensures LeadToRow(LeadFromRow(row)) == row
  {
  }

  // ---------------------------------------------------------------------------------------
  // Keys

  function IdsLeads(leads: seq<Lead>): (ids: seq<string>)
    ensures |ids| == |leads|
  {
    seq(|leads|, i requires 0 <= i < |leads| => leads[i].id)
  }

  predicate IdsLeadsUnicos(leads: seq<Lead>) {
    forall i, j :: 0 <= i < j < |leads| ==> leads[i].id != leads[j].id
  }

  /** The position of the lead with primary key `id`. */
  function IndiceLead(leads: seq<Lead>, id: string): (r: Option<nat>)
    ensures r.Some? ==> r.value < |leads| && leads[r.value].id == id
    ensures r.None? <==> id !in IdsLeads(leads)
    ensures IdsLeadsUnicos(leads) && r.Some? ==> forall k :: 0 <= k < |leads| && leads[k].id == id ==> k == r.value
  {
    var r := Primeiro(leads, (l: Lead) => l.id == id);
    if r.None? then
      assert forall k :: 0 <= k < |leads| ==> IdsLeads(leads)[k] != id;
      r
    else
      assert IdsLeads(leads)[r.value] == id;
      r
  }

  /** Replacing a lead by one with the same key keeps the keys as they were. */
  lemma IdsLeadsSubstituir(leads: seq<Lead>, i: nat, x: Lead)
    requires i < |leads| && x.id == leads[i].id
    ensures IdsLeads(leads[i := x]) == IdsLeads(leads)
    ensures IdsLeadsUnicos(leads) ==> IdsLeadsUnicos(leads[i := x])
  {
  }

  lemma IdsLeadsAcrescentar(leads: seq<Lead>, x: Lead)
    ensures IdsLeads(leads + [x]) == IdsLeads(leads) + [x.id]
    ensures IdsLeadsUnicos(leads) && x.id !in IdsLeads(leads) ==> IdsLeadsUnicos(leads + [x])
  {
    if IdsLeadsUnicos(leads) && x.id !in IdsLeads(leads) {
      forall i, j | 0 <= i < j < |leads + [x]| ensures (leads + [x])[i].id != (leads + [x])[j].id {
        if j == |leads| {
          assert IdsLeads(leads)[i] == leads[i].id;
        }
      }
    }
  }

  function IdsInteracoes(s: seq<Interacao>): seq<string> {
    seq(|s|, i requires 0 <= i < |s| => s[i].id)
  }

  function IdsVisitas(s: seq<Visita>): seq<string> {
    seq(|s|, i requires 0 <= i < |s| => s[i].id)
  }

  predicate IdsVisitasUnicos(s: seq<Visita>) {
    forall i, j :: 0 <= i < j < |s| ==> s[i].id != s[j].id
  }

  lemma IdsVisitasSubstituir(s: seq<Visita>, i: nat, x: Visita)
    requires i < |s| && x.id == s[i].id
    ensures IdsVisitas(s[i := x]) == IdsVisitas(s)
    ensures IdsVisitasUnicos(s) ==> IdsVisitasUnicos(s[i := x])
  {
  }

  lemma IdsVisitasAcrescentar(s: seq<Visita>, x: Visita)
    ensures IdsVisitasUnicos(s) && x.id !in IdsVisitas(s) ==> IdsVisitasUnicos(s + [x])
  {
    if IdsVisitasUnicos(s) && x.id !in IdsVisitas(s) {
      forall i, j | 0 <= i < j < |s + [x]| ensures (s + [x])[i].id != (s + [x])[j].id {
        if j == |s| {
          assert IdsVisitas(s)[i] == s[i].id;
        }
      }
    }
  }

  /** The position of the visit with primary key `id`. */
  function IndiceVisita(s: seq<Visita>, id: string): (r: Option<nat>)
    ensures r.Some? ==> r.value < |s| && s[r.value].id == id
    ensures r.None? <==> id !in IdsVisitas(s)
  {
    var r := Primeiro(s, (v: Visita) => v.id == id);
    if r.None? then
      assert forall k :: 0 <= k < |s| ==> IdsVisitas(s)[k] != id;
      r
    else
      assert IdsVisitas(s)[r.value] == id;
      r
  }

  // ---------------------------------------------------------------------------------------
  // Partial updates

  /** `Partial<Omit<Lead, "id" | "criadoEm">>`; `atualizadoEm` is always overwritten, so it is not here. */
  datatype LeadPatch = LeadPatch(
    nome: Patch<string>,
    telefone: Patch<Option<string>>,
    email: Patch<Option<string>>,
    origem: Patch<OrigemLead>,
    status: Patch<StatusLead>,
    interesse: Patch<Option<InteresseLead>>,
    dataUltimoContato: Patch<Option<int>>,
    dataProximoFollowup: Patch<Option<int>>,
    motivoPerda: Patch<Option<string>>,
    corretorId: Patch<Option<string>>,
    imoveisInteresse: Patch<Option<seq<string>>>,
    observacoes: Patch<Option<string>>)

  /** `{}` */
  const SemAlteracao := LeadPatch(Keep, Keep, Keep, Keep, Keep, Keep, Keep, Keep, Keep, Keep, Keep, Keep)

  /**
   * `{ ...existente, ...dados, id, criadoEm: existente.criadoEm, atualizadoEm: agora }`:
   * the key and the creation time survive whatever the update says, and the update time is now.
   */
  function Mesclar(l: Lead, p: LeadPatch, agora: int): (r: Lead)
    ensures r.id == l.id && r.criadoEm == l.criadoEm && r.atualizadoEm == agora
    ensures Campo(p.nome, l.nome, r.nome) && Campo(p.telefone, l.telefone, r.telefone)
    ensures Campo(p.email, l.email, r.email) && Campo(p.origem, l.origem, r.origem)
    ensures Campo(p.status, l.status, r.status) && Campo(p.interesse, l.interesse, r.interesse)
    ensures Campo(p.dataUltimoContato, l.dataUltimoContato, r.dataUltimoContato)
    ensures Campo(p.dataProximoFollowup, l.dataProximoFollowup, r.dataProximoFollowup)
    ensures Campo(p.motivoPerda, l.motivoPerda, r.motivoPerda) && Campo(p.corretorId, l.corretorId, r.corretorId)
    ensures Campo(p.imoveisInteresse, l.imoveisInteresse, r.imoveisInteresse)
    ensures Campo(p.observacoes, l.observacoes, r.observacoes)
  {
    Lead(
      l.id,
      p.nome.Apply(l.nome),
      p.telefone.Apply(l.telefone),
      p.email.Apply(l.email),
      p.origem.Apply(l.origem),
      p.status.Apply(l.status),
      p.interesse.Apply(l.interesse),
      p.dataUltimoContato.Apply(l.dataUltimoContato),
      p.dataProximoFollowup.Apply(l.dataProximoFollowup),
      p.motivoPerda.Apply(l.motivoPerda),
      p.corretorId.Apply(l.corretorId),
      p.imoveisInteresse.Apply(l.imoveisInteresse),
      l.criadoEm,
      agora,
      p.observacoes.Apply(l.observacoes))
  }

  /** An empty update only moves the update time. */
  lemma MesclarVazio(l: Lead, agora: int)
    ensures Mesclar(l, SemAlteracao, agora) == l.(atualizadoEm := agora)
  {
  }

  /**
   * An update that names one field changes that field and the update time only; naming it
   * with `undefined` clears it.
   */
  lemma MesclarUmCampo(l: Lead, email: Option<string>, agora: int)
    ensures Mesclar(l, SemAlteracao.(email := Set(email)), agora) == l.(email := email, atualizadoEm := agora)
    ensures Mesclar(l, SemAlteracao.(email := Set(None)), agora).email == None
  {
  }

  /** Merging is last-writer-wins: a second update of the same fields overrides the first. */
  lemma MesclarDuasVezes(l: Lead, p: LeadPatch, q: LeadPatch, t1: int, t2: int)
    requires q.nome.Set? && q.telefone.Set? && q.email.Set? && q.origem.Set? && q.status.Set?
    requires q.interesse.Set? && q.dataUltimoContato.Set? && q.dataProximoFollowup.Set?
    requires q.motivoPerda.Set? && q.corretorId.Set? && q.imoveisInteresse.Set? && q.observacoes.Set?
    ensures Mesclar(Mesclar(l, p, t1), q, t2) == Mesclar(l, q, t2)
  {
  }

  /** `Partial<Omit<Visita, "id" | "criadoEm">>`, without the overwritten `atualizadoEm`. */
  datatype VisitaPatch = VisitaPatch(
    leadId: Patch<string>,
    imovelId: Patch<string>,
    corretorId: Patch<Option<string>>,
    dataHora: Patch<int>,
    duracao: Patch<Option<int>>,
    status: Patch<StatusVisita>,
    observacoes: Patch<Option<string>>,
    feedback: Patch<Option<Feedback>>)

  /** The same merge as for leads: key and creation time kept, update time set to now. */
  function MesclarVisita(v: Visita, p: VisitaPatch, agora: int): (r: Visita)
    ensures r.id == v.id && r.criadoEm == v.criadoEm && r.atualizadoEm == agora
    ensures Campo(p.leadId, v.leadId, r.leadId) && Campo(p.imovelId, v.imovelId, r.imovelId)
    ensures Campo(p.corretorId, v.corretorId, r.corretorId) && Campo(p.dataHora, v.dataHora, r.dataHora)
    ensures Campo(p.duracao, v.duracao, r.duracao) && Campo(p.status, v.status, r.status)
    ensures Campo(p.observacoes, v.observacoes, r.observacoes) && Campo(p.feedback, v.feedback, r.feedback)
  {
    VisitaSchema.Visita(
      v.id,
      p.leadId.Apply(v.leadId),
      p.imovelId.Apply(v.imovelId),
      p.corretorId.Apply(v.corretorId),
      p.dataHora.Apply(v.dataHora),
      p.duracao.Apply(v.duracao),
      p.status.Apply(v.status),
      p.observacoes.Apply(v.observacoes),
      p.feedback.Apply(v.feedback),
      v.criadoEm,
      agora)
  }

  // ---------------------------------------------------------------------------------------
  // Queries

  /** The filters of `listarLeads`. */
  datatype FiltroLeads = FiltroLeads(status: Option<StatusLead>, origem: Option<OrigemLead>, limite: Option<int>)

  predicate AceitaLead(f: FiltroLeads, l: Lead) {
    (f.status.None? || l.status == f.status.value) && (f.origem.None? || l.origem == f.origem.value)
  }

  /** `ORDER BY atualizado_em DESC`, as an ascending key. */
  function MaisRecente(l: Lead): int {
    -l.atualizadoEm
  }

  /**
   * `listarLeads`: the leads that pass the status and origin filters, most recently updated
   * first, at most `limite` of them (50 when no limit is given).
   */
  function ListagemLeads(leads: seq<Lead>, f: FiltroLeads): (r: seq<Lead>)
    ensures forall i :: 0 <= i < |r| ==> r[i] in leads && AceitaLead(f, r[i])
    ensures multiset(r) <= multiset(leads)
    ensures forall i, j :: 0 <= i < j < |r| ==> r[i].atualizadoEm >= r[j].atualizadoEm
    ensures 0 <= f.limite.GetOr(50) ==> |r| <= f.limite.GetOr(50)
    ensures f.limite.GetOr(50) < 0 || |Filtrar(leads, (l: Lead) => AceitaLead(f, l))| <= f.limite.GetOr(50)
      ==> multiset(r) == multiset(Filtrar(leads, (l: Lead) => AceitaLead(f, l)))
  {
    Consulta(leads, (l: Lead) => AceitaLead(f, l), MaisRecente, f.limite.GetOr(50))
  }

  /** With no status or origin filter and room for every lead, the listing holds every lead. */
  lemma ListagemSemFiltro(leads: seq<Lead>, limite: int)
    requires |leads| <= limite
    ensures multiset(ListagemLeads(leads, FiltroLeads(None, None, Some(limite)))) == multiset(leads)
  {
    var f := FiltroLeads(None, None, Some(limite));
    FiltrarTudo(leads, (l: Lead) => AceitaLead(f, l));
  }

  /** The lead is due for a follow-up at `agora`. */
  predicate FollowupVencido(l: Lead, agora: int) {
    l.dataProximoFollowup.Some? && l.dataProximoFollowup.value <= agora && !l.status.Terminal()
  }

  /** The follow-up date, which every due lead has. */
  function ChaveFollowup(l: Lead): int {
    l.dataProximoFollowup.GetOr(0)
  }

  /**
   * `leadsParaFollowup`: exactly the open leads whose follow-up date is set and not after
   * `agora`, earliest follow-up first.
   */
  function LeadsVencidos(leads: seq<Lead>, agora: int): (r: seq<Lead>)
    ensures forall l :: l in r <==> l in leads && FollowupVencido(l, agora)
    ensures forall i, j :: 0 <= i < j < |r| ==> ChaveFollowup(r[i]) <= ChaveFollowup(r[j])
    ensures multiset(r) == multiset(Filtrar(leads, (l: Lead) => FollowupVencido(l, agora)))
  {
    var p := (l: Lead) => FollowupVencido(l, agora);
    ConsultaSemLimite(leads, p, ChaveFollowup);
    Consulta(leads, p, ChaveFollowup, -1)
  }

  /** The filters of `listarVisitas`; the ids count only when they are non-empty strings. */
  datatype FiltroVisitas = FiltroVisitas(
    leadId: Option<string>,
    imovelId: Option<string>,
    status: Option<StatusVisita>,
    dataInicio: Option<int>,
    dataFim: Option<int>,
    limite: Option<int>)

  predicate AceitaVisita(f: FiltroVisitas, v: Visita) {
    (!Preenchido(f.leadId) || v.leadId == f.leadId.value)
    && (!Preenchido(f.imovelId) || v.imovelId == f.imovelId.value)
    && (f.status.None? || v.status == f.status.value)
    && (f.dataInicio.None? || f.dataInicio.value <= v.dataHora)
    && (f.dataFim.None? || v.dataHora <= f.dataFim.value)
  }

  function DataHora(v: Visita): int {
    v.dataHora
  }

  /**
   * `listarVisitas`: the visits inside the inclusive date bounds that pass the other
   * filters, in ascending date order, at most `limite` of them (50 by default).
   */
  function ListagemVisitas(visitas: seq<Visita>, f: FiltroVisitas): (r: seq<Visita>)
    ensures forall i :: 0 <= i < |r| ==> r[i] in visitas && AceitaVisita(f, r[i])
    ensures forall i :: 0 <= i < |r| ==>
      (f.dataInicio.None? || f.dataInicio.value <= r[i].dataHora) && (f.dataFim.None? || r[i].dataHora <= f.dataFim.value)
    ensures forall i, j :: 0 <= i < j < |r| ==> r[i].dataHora <= r[j].dataHora
    ensures 0 <= f.limite.GetOr(50) ==> |r| <= f.limite.GetOr(50)
    ensures f.limite.GetOr(50) < 0 || |Filtrar(visitas, (v: Visita) => AceitaVisita(f, v))| <= f.limite.GetOr(50)
      ==> multiset(r) == multiset(Filtrar(visitas, (v: Visita) => AceitaVisita(f, v)))
  {
    Consulta(visitas, (v: Visita) => AceitaVisita(f, v), DataHora, f.limite.GetOr(50))
  }

  function MaisRecenteInteracao(x: Interacao): int {
    -x.data
  }

  /** `listarInteracoes`: the lead's interactions, newest first, at most `limite` (20 by default). */
  function ListagemInteracoes(interacoes: seq<Interacao>, leadId: string, limite: Option<int>): (r: seq<Interacao>)
    ensures forall i :: 0 <= i < |r| ==> r[i] in interacoes && r[i].leadId == leadId
    ensures forall i, j :: 0 <= i < j < |r| ==> r[i].data >= r[j].data
    ensures 0 <= limite.GetOr(20) ==> |r| <= limite.GetOr(20)
    ensures limite.GetOr(20) < 0 || |Filtrar(interacoes, (x: Interacao) => x.leadId == leadId)| <= limite.GetOr(20)
      ==> multiset(r) == multiset(Filtrar(interacoes, (x: Interacao) => x.leadId == leadId))
  {
    Consulta(interacoes, (x: Interacao) => x.leadId == leadId, MaisRecenteInteracao, limite.GetOr(20))
  }

  /** The characters the phone lookup strips from the stored number: '-', ' ' and '+'. */
  predicate Separador(c: char) {
    c == '-' || c == ' ' || c == '+'
  }

  predicate NaoSeparador(c: char) {
    !Separador(c)
  }

  /** `REPLACE(REPLACE(REPLACE(telefone, '-', ''), ' ', ''), '+', '')` */
  function TelefoneLimpo(t: string): string {
    KeepChars(t, NaoSeparador)
  }

  /** `telefone.replace(/\D/g, "")` */
  function SoDigitos(t: string): (d: string)
    ensures AllDigits(d)
  {
    KeepChars(t, IsDigit)
  }

  /** Stripping the separators keeps every digit: the cleaned phone has the same digits. */
  lemma {:induction false} SoDigitosDoLimpo(t: string)
    decreases |t|
    ensures SoDigitos(TelefoneLimpo(t)) == SoDigitos(t)
  {
    if t != [] {
      SoDigitosDoLimpo(t[1..]);
      var r := TelefoneLimpo(t[1..]);
      if NaoSeparador(t[0]) {
        assert TelefoneLimpo(t) == [t[0]] + r;
        assert ([t[0]] + r)[1..] == r;
      } else {
        assert TelefoneLimpo(t) == r;
      }
    }
  }

  /** The `WHERE` of `buscarLeadPorTelefone`: NULL phones never match. */
  predicate TelefoneCasa(l: Lead, digitos: string) {
    l.telefone.Some? && Like(TelefoneLimpo(l.telefone.value), "%" + digitos)
  }

  lemma DigitosSemCuringa(d: string)
    requires AllDigits(d)
    ensures SemCuringa(d) && LowerAscii(d) == d
  {
  }

  /** Folding ASCII case neither creates nor changes digits, so a digit suffix is found either way. */
  lemma TerminaComDigitos(t: string, d: string)
    requires AllDigits(d)
    ensures EndsWith(LowerAscii(t), d) <==> EndsWith(t, d)
  {
    if EndsWith(LowerAscii(t), d) {
      forall k | 0 <= k < |d| ensures t[|t| - |d| + k] == d[k] {
        assert LowerAscii(t)[|t| - |d| + k] == d[k];
      }
    }
  }

  /**
   * The phone lookup matches exactly the leads whose stored phone, stripped of '-', ' ' and
   * '+', ends with the digits of the number asked for.
   */
  lemma TelefoneCasaSufixo(l: Lead, telefone: string)
    ensures TelefoneCasa(l, SoDigitos(telefone)) <==>
      l.telefone.Some? && EndsWith(TelefoneLimpo(l.telefone.value), SoDigitos(telefone))
  {
    var d := SoDigitos(telefone);
    DigitosSemCuringa(d);
    if l.telefone.Some? {
      LikeTermina(TelefoneLimpo(l.telefone.value), d);
      TerminaComDigitos(TelefoneLimpo(l.telefone.value), d);
    }
  }

  /** `buscarLeadPorTelefone`: the first lead, in table order, whose phone matches. */
  function LeadPorTelefone(leads: seq<Lead>, telefone: string): (r: Option<Lead>)
    ensures r.Some? ==>
      r.value in leads && r.value.telefone.Some? && EndsWith(TelefoneLimpo(r.value.telefone.value), SoDigitos(telefone))
    ensures r.None? ==> forall l :: l in leads ==>
      !(l.telefone.Some? && EndsWith(TelefoneLimpo(l.telefone.value), SoDigitos(telefone)))
  {
    var d := SoDigitos(telefone);
    var k := Primeiro(leads, (l: Lead) => TelefoneCasa(l, d));
    match k
    case Some(i) =>
      TelefoneCasaSufixo(leads[i], telefone);
      Some(leads[i])
    case None =>
      assert forall l :: l in leads ==> !(l.telefone.Some? && EndsWith(TelefoneLimpo(l.telefone.value), d)) by {
        forall l | l in leads ensures !(l.telefone.Some? && EndsWith(TelefoneLimpo(l.telefone.value), d)) {
          var i :| 0 <= i < |leads| && leads[i] == l;
          TelefoneCasaSufixo(l, telefone);
        }
      }
      None
  }

  /** How many leads have status `s`: one `COUNT(*)` of the `GROUP BY status`. */
  function ContarStatus(leads: seq<Lead>, s: StatusLead): (n: nat)
    decreases |leads|
    ensures n <= |leads|
    ensures n > 0 <==> exists k :: 0 <= k < |leads| && leads[k].status == s
  {
    if leads == [] then 0
    else
      var resto := ContarStatus(leads[1..], s);
      assert forall k :: 1 <= k < |leads| ==> leads[k] == leads[1..][k - 1];
      (if leads[0].status == s then 1 else 0) + resto
  }

  /** `SELECT status, COUNT(*) ... GROUP BY status`: one row per status that occurs. */
  function GruposPorStatus(leads: seq<Lead>): (grupos: seq<(StatusLead, nat)>)
    ensures forall i :: 0 <= i < |grupos| ==> grupos[i].1 == ContarStatus(leads, grupos[i].0) > 0
    ensures forall s :: ContarStatus(leads, s) > 0 ==> exists i :: 0 <= i < |grupos| && grupos[i].0 == s
  {
    StatusLeadTodosOrdem();
    var grupos := seq(|StatusLeadTodos|, i requires 0 <= i < |StatusLeadTodos| =>
      (StatusLeadTodos[i], ContarStatus(leads, StatusLeadTodos[i])));
    var r := Filtrar(grupos, (g: (StatusLead, nat)) => g.1 > 0);
    assert forall s :: ContarStatus(leads, s) > 0 ==> exists i :: 0 <= i < |r| && r[i].0 == s by {
      forall s | ContarStatus(leads, s) > 0 ensures exists i :: 0 <= i < |r| && r[i].0 == s {
        assert grupos[s.Indice()] == (s, ContarStatus(leads, s));
        var i :| 0 <= i < |r| && r[i] == grupos[s.Indice()];
      }
    }
    r
  }

  /** The count of each status, with the statuses that do not occur counted as 0. */
  function SomaStatus(leads: seq<Lead>): nat {
    ContarStatus(leads, Novo) + ContarStatus(leads, ContatoInicial) + ContarStatus(leads, Qualificado)
    + ContarStatus(leads, VisitaAgendada) + ContarStatus(leads, StatusLead.Proposta)
    + ContarStatus(leads, Negociacao) + ContarStatus(leads, FechadoGanho) + ContarStatus(leads, FechadoPerdido)
  }

  /** Every lead is counted under exactly one status, so the counts add up to the table size. */
  lemma {:induction false} SomaStatusTotal(leads: seq<Lead>)
    decreases |leads|
    ensures SomaStatus(leads) == |leads|
  {
    if leads != [] {
      SomaStatusTotal(leads[1..]);
    }
  }

  // ---------------------------------------------------------------------------------------
  // The store

  /** CrmStore: the three tables, with their primary keys and the foreign keys to `leads`. */
  class CrmStore {
    var leads: seq<Lead>
    var interacoes: seq<Interacao>
    var visitas: seq<Visita>

    ghost predicate Valid()
      reads this
    {
      IdsLeadsUnicos(leads)
      && IdsVisitasUnicos(visitas)
      && (forall i :: 0 <= i < |interacoes| ==> interacoes[i].leadId in IdsLeads(leads))
      && (forall i :: 0 <= i < |visitas| ==> visitas[i].leadId in IdsLeads(leads))
    }

    constructor()
      ensures Valid()
      ensures leads == [] && interacoes == [] && visitas == []
    {
      leads, interacoes, visitas := [], [], [];
    }

    /** `criarLead`: the new lead takes the fresh id and `agora` as both timestamps. */
    method CriarLead(dados: Lead, id: string, agora: int) returns (lead: Lead)
      requires Valid() && id !in IdsLeads(leads)
      modifies this
      ensures Valid()
      ensures lead == dados.(id := id, criadoEm := agora, atualizadoEm := agora)
      ensures leads == old(leads) + [lead]
      ensures interacoes == old(interacoes) && visitas == old(visitas)
    {
      lead := dados.(id := id, criadoEm := agora, atualizadoEm := agora);
      IdsLeadsAcrescentar(leads, lead);
      leads := leads + [lead];
    }

    /** `buscarLeadPorId` */
    function BuscarLeadPorId(id: string): (r: Option<Lead>)
      reads this
      ensures r.Some? <==> id in IdsLeads(leads)
      ensures r.Some? ==> r.value in leads && r.value.id == id
    {
      match IndiceLead(leads, id)
      case Some(i) => Some(leads[i])
      case None => None
    }

    /** `buscarLeadPorTelefone` */
    function BuscarLeadPorTelefone(telefone: string): (r: Option<Lead>)
      reads this
      ensures r == LeadPorTelefone(leads, telefone)
      ensures r.Some? ==>
        r.value in leads && r.value.telefone.Some? && EndsWith(TelefoneLimpo(r.value.telefone.value), SoDigitos(telefone))
      ensures r.None? ==> forall l :: l in leads ==>
        !(l.telefone.Some? && EndsWith(TelefoneLimpo(l.telefone.value), SoDigitos(telefone)))
    {
      LeadPorTelefone(leads, telefone)
    }

    /** `listarLeads` */
    function ListarLeads(f: FiltroLeads): (r: seq<Lead>)
      reads this
      ensures r == ListagemLeads(leads, f)
      ensures forall i :: 0 <= i < |r| ==> r[i] in leads && AceitaLead(f, r[i])
      ensures multiset(r) <= multiset(leads)
      ensures forall i, j :: 0 <= i < j < |r| ==> r[i].atualizadoEm >= r[j].atualizadoEm
      ensures 0 <= f.limite.GetOr(50) ==> |r| <= f.limite.GetOr(50)
    {
      ListagemLeads(leads, f)
    }

    /**
     * `atualizarLead`: an unknown id changes nothing and gives `None`; otherwise the lead
     * becomes the merge of the stored lead with the update, and nothing else changes.
     */
    method AtualizarLead(id: string, dados: LeadPatch, agora: int) returns (r: Option<Lead>)
      requires Valid()
      modifies this
      ensures Valid()
      ensures IdsLeads(leads) == old(IdsLeads(leads))
      ensures interacoes == old(interacoes) && visitas == old(visitas)
      ensures match old(IndiceLead(leads, id))
        case None => r.None? && leads == old(leads)
        case Some(i) => r == Some(Mesclar(old(leads[i]), dados, agora)) && leads == old(leads)[i := r.value]
    {
      match IndiceLead(leads, id)
      case None =>
        r := None;
      case Some(i) =>
        var atualizado := Mesclar(leads[i], dados, agora);
        IdsLeadsSubstituir(leads, i, atualizado);
        leads := leads[i := atualizado];
        r := Some(atualizado);
    }

    /** `leadsParaFollowup`, with the clock reading passed in. */
    function LeadsParaFollowup(agora: int): (r: seq<Lead>)
      reads this
      ensures r == LeadsVencidos(leads, agora)
      ensures forall l :: l in r <==> l in leads && FollowupVencido(l, agora)
      ensures forall i, j :: 0 <= i < j < |r| ==> ChaveFollowup(r[i]) <= ChaveFollowup(r[j])
    {
      LeadsVencidos(leads, agora)
    }

    /**
     * `contarLeadsPorStatus`: one entry per status that occurs, holding how many leads have
     * it. Statuses with no lead are absent, as in the `GROUP BY` result.
     */
    method ContarLeadsPorStatus() returns (contagem: map<StatusLead, nat>)
      ensures forall s :: s in contagem <==> ContarStatus(leads, s) > 0
      ensures forall s :: s in contagem ==> contagem[s] == ContarStatus(leads, s)
    {
      var tabela := leads;
      var grupos := GruposPorStatus(tabela);
      contagem := Agrupar(grupos, (s: StatusLead) => ContarStatus(tabela, s));
    }

    /**
     * `registrarInteracao`: with the lead present, the interaction is appended under the fresh
     * id and the lead's last contact becomes the interaction's date. With the lead absent the
     * foreign key refuses the insert: the constraint error, and nothing changes.
     */
    method RegistrarInteracao(dados: Interacao, id: string, agora: int) returns (r: Escrita<Interacao>)
      requires Valid()
      modifies this
      ensures Valid()
      ensures IdsLeads(leads) == old(IdsLeads(leads)) && visitas == old(visitas)
      ensures match old(IndiceLead(leads, dados.leadId))
        case None => r == ChaveEstrangeiraViolada && leads == old(leads) && interacoes == old(interacoes)
        case Some(i) =>
          r == Escrito(dados.(id := id))
          && interacoes == old(interacoes) + [r.valor]
          && leads == old(leads)[i := old(leads[i]).(dataUltimoContato := Some(dados.data), atualizadoEm := agora)]
    {
      match IndiceLead(leads, dados.leadId)
      case None =>
        r := ChaveEstrangeiraViolada;
      case Some(i) =>
        var interacao := dados.(id := id);
        interacoes := interacoes + [interacao];
        var contato := leads[i].(dataUltimoContato := Some(dados.data), atualizadoEm := agora);
        IdsLeadsSubstituir(leads, i, contato);
        leads := leads[i := contato];
        r := Escrito(interacao);
    }

    /** `listarInteracoes` */
    function ListarInteracoes(leadId: string, limite: Option<int>): (r: seq<Interacao>)
      reads this
      ensures r == ListagemInteracoes(interacoes, leadId, limite)
      ensures forall i :: 0 <= i < |r| ==> r[i] in interacoes && r[i].leadId == leadId
      ensures forall i, j :: 0 <= i < j < |r| ==> r[i].data >= r[j].data
    {
      ListagemInteracoes(interacoes, leadId, limite)
    }

    /** `criarVisita`: the constraint error, with nothing changed, when the visit's lead does not exist. */
    method CriarVisita(dados: Visita, id: string, agora: int) returns (r: Escrita<Visita>)
      requires Valid() && id !in IdsVisitas(visitas)
      modifies this
      ensures Valid()
      ensures leads == old(leads) && interacoes == old(interacoes)
      ensures dados.leadId !in IdsLeads(leads) ==> r == ChaveEstrangeiraViolada && visitas == old(visitas)
      ensures dados.leadId in IdsLeads(leads) ==>
        r == Escrito(dados.(id := id, criadoEm := agora, atualizadoEm := agora)) && visitas == old(visitas) + [r.valor]
    {
      if dados.leadId !in IdsLeads(leads) {
        r := ChaveEstrangeiraViolada;
      } else {
        var visita := dados.(id := id, criadoEm := agora, atualizadoEm := agora);
        IdsVisitasAcrescentar(visitas, visita);
        visitas := visitas + [visita];
        r := Escrito(visita);
      }
    }

    /** `buscarVisitaPorId` */
    function BuscarVisitaPorId(id: string): (r: Option<Visita>)
      reads this
      ensures r.Some? <==> id in IdsVisitas(visitas)
      ensures r.Some? ==> r.value in visitas && r.value.id == id
    {
      match IndiceVisita(visitas, id)
      case Some(i) => Some(visitas[i])
      case None => None
    }

    /** `listarVisitas` */
    function ListarVisitas(f: FiltroVisitas): (r: seq<Visita>)
      reads this
      ensures r == ListagemVisitas(visitas, f)
      ensures forall i :: 0 <= i < |r| ==> r[i] in visitas && AceitaVisita(f, r[i])
      ensures forall i, j :: 0 <= i < j < |r| ==> r[i].dataHora <= r[j].dataHora
      ensures 0 <= f.limite.GetOr(50) ==> |r| <= f.limite.GetOr(50)
    {
      ListagemVisitas(visitas, f)
    }

    /** `visitasHoje`, with the day's first and last instant passed in. */
    function VisitasHoje(inicio: int, fim: int): (r: seq<Visita>)
      reads this
      ensures r == ListagemVisitas(visitas, FiltroVisitas(None, None, None, Some(inicio), Some(fim), None))
      ensures forall i :: 0 <= i < |r| ==> r[i] in visitas && inicio <= r[i].dataHora <= fim
    {
      ListagemVisitas(visitas, FiltroVisitas(None, None, None, Some(inicio), Some(fim), None))
    }

    /**
     * `atualizarVisita`: the merge of `atualizarLead` applied to a visit. An unknown id gives
     * `null`; an update that points the visit at a lead that does not exist is refused by the
     * foreign key with the constraint error. In both cases nothing changes.
     */
    method AtualizarVisita(id: string, dados: VisitaPatch, agora: int) returns (r: Escrita<Option<Visita>>)
      requires Valid()
      modifies this
      ensures Valid()
      ensures leads == old(leads) && interacoes == old(interacoes)
      ensures match old(IndiceVisita(visitas, id))
        case None => r == Escrito(None) && visitas == old(visitas)
        case Some(i) =>
          var m := MesclarVisita(old(visitas[i]), dados, agora);
          if m.leadId in IdsLeads(leads) then r == Escrito(Some(m)) && visitas == old(visitas)[i := m]
          else r == ChaveEstrangeiraViolada && visitas == old(visitas)
    {
      match IndiceVisita(visitas, id)
      case None =>
        r := Escrito(None);
      case Some(i) =>
        var atualizada := MesclarVisita(visitas[i], dados, agora);
        if atualizada.leadId in IdsLeads(leads) {
          IdsVisitasSubstituir(visitas, i, atualizada);
          visitas := visitas[i := atualizada];
          r := Escrito(Some(atualizada));
        } else {
          r := ChaveEstrangeiraViolada;
        }
    }
  }
}
