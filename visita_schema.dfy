/** A scheduled visit of a lead to a listing. */
module VisitaSchema {
  import opened Wrappers

  /** STATUS_VISITA. */
  datatype StatusVisita = Agendada | Confirmada | Realizada | Cancelada | Reagendada | NoShow

  /** What the lead said after the visit; the score is meant to be 1 to 5. */
  datatype Feedback = Feedback(
    interesseNota: Option<real>,
    comentario: Option<string>,
    objecoes: Option<seq<string>>)

  datatype Visita = Visita(
    id: string,
    leadId: string,
    imovelId: string,
    corretorId: Option<string>,
    dataHora: int,
    duracao: Option<int>,
    status: StatusVisita,
    observacoes: Option<string>,
    feedback: Option<Feedback>,
    criadoEm: int,
    atualizadoEm: int)
}
