/**
 The server's state and the effect of each request on it, as functions.

 The state is the three category queues (`filas`) and the registry of
 attendants (`atendentesLogados`), which maps an attendant id to the counter
 (`guiche`) they work at and the ticket they hold (`senhaAtual`). Each of
 the four request handlers either broadcasts an event carrying the new
 queues to every client, or answers only the requester with an error and
 leaves the state as it was.
 */
module Transitions {
  import opened Wrappers
  import opened Tickets

  type AttendantId = string
  type CounterId = string

  /** An entry of `atendentesLogados`. */
  datatype Session = Session(guiche: CounterId, senhaAtual: Option<Ticket>)

  type Queues = map<Category, seq<Ticket>>

  datatype State = State(queues: Queues, sessions: map<AttendantId, Session>)

  /** Every category has a queue. */
  predicate WellFormed(s: State)
  {
    forall c: Category :: c in s.queues
  }

  /** A map with the three category keys has every category as a key. */
  lemma EveryCategoryIn<V>(m: map<Category, V>)
    requires Normal in m && Priority in m && Pickup in m
    ensures forall c: Category :: c in m
  {
    forall c: Category ensures c in m {
      match c
      case Normal =>
      case Priority =>
      case Pickup =>
    }
  }

  /** The state at start-up: three empty queues and no attendant. */
  function Initial(): (s: State)
    ensures WellFormed(s)
    ensures forall c :: s.queues[c] == []
    ensures s.sessions == map[]
  {
    var queues := map[Normal := [], Priority := [], Pickup := []];
    EveryCategoryIn(queues);
    State(queues, map[])
  }

  /** The events broadcast to every client; each carries the queues as they
      are after the change. */
  datatype Event =
    | TicketGenerated(senha: Ticket, filas: Queues)
    | TicketCalled(senha: Ticket, guiche: CounterId, atendenteId: AttendantId, filas: Queues)
    | ServiceFinished(senha: Ticket, atendenteId: AttendantId, filas: Queues)
    | TicketRedirected(senha: Ticket, novoTipo: string, atendenteId: AttendantId, filas: Queues)

  /** The errors sent back to the requester only. */
  datatype Error =
    | InvalidTicketType(tipo: string)
    | InvalidQueueType(tipo: string)
    | EmptyQueue(tipo: string)
    | NoTicketToFinish
    | InvalidRedirectType
    | NoTicketToRedirect

  datatype Outcome = Broadcast(event: Event) | Reject(error: Error)

  datatype Step = Step(state: State, outcome: Outcome)

  /** The socket.io event name each outcome is emitted under. */
  function Channel(o: Outcome): (name: string)
    ensures o.Reject? <==> IsErrorChannel(name)
  {
    match o
    case Broadcast(TicketGenerated(_, _)) => "senha-gerada"
    case Broadcast(TicketCalled(_, _, _, _)) => "senha-chamada"
    case Broadcast(ServiceFinished(_, _, _)) => "atendimento-finalizado"
    case Broadcast(TicketRedirected(_, _, _, _)) => "redirecionar-sucesso"
    case Reject(InvalidTicketType(_)) => "gerar-senha-error"
    case Reject(InvalidQueueType(_)) => "chamar-error"
    case Reject(EmptyQueue(_)) => "chamar-error"
    case Reject(NoTicketToFinish) => "finalizar-error"
    case Reject(InvalidRedirectType) => "redirect-error"
    case Reject(NoTicketToRedirect) => "redirect-error"
  }

  /** A channel whose name ends in "-error" carries a rejection. */
  predicate IsErrorChannel(name: string)
  {
    |name| >= 6 && name[|name| - 6..] == "-error"
  }

  /** The text of each error message; a message about a category name
      quotes that name. */
  function Message(e: Error): (text: string)
    ensures (e.InvalidTicketType? || e.InvalidQueueType?) ==>
      |text| >= |e.tipo| && text[|text| - |e.tipo|..] == e.tipo
    ensures e.EmptyQueue? ==> |text| >= 22 + |e.tipo| && text[22..22 + |e.tipo|] == e.tipo
  {
    match e
    case InvalidTicketType(tipo) => "Tipo de atendimento inválido: " + tipo
    case InvalidQueueType(tipo) => "Tipo de fila inválido: " + tipo
    case EmptyQueue(tipo) => "Não há senhas do tipo " + tipo + " na fila."
    case NoTicketToFinish => "Nenhuma senha válida em atendimento para finalizar."
    case InvalidRedirectType => "Tipo de redirecionamento inválido."
    case NoTicketToRedirect => "Nenhuma senha válida em atendimento para redirecionar."
  }

  /** The check guarding finish and redirect: the attendant has a session,
      holds a ticket, and that ticket's number is the given one. Tickets are
      compared by number only. */
  predicate Holds(sessions: map<AttendantId, Session>, id: AttendantId, numero: string)
  {
    id in sessions && sessions[id].senhaAtual.Some? && sessions[id].senhaAtual.value.numero == numero
  }

  /** `gerar-senha`: number the new ticket after the current length of its
      queue and append it there. */
  function Generate(s: State, tipo: string, now: Timestamp): (r: Step)
    requires WellFormed(s)
    ensures WellFormed(r.state)
    ensures r.outcome.Reject? <==> ParseCategory(tipo).None?
    ensures r.outcome.Reject? ==> r == Step(s, Reject(InvalidTicketType(tipo)))
    ensures r.outcome.Broadcast? ==>
      var c := ParseCategory(tipo).value;
      var t := r.outcome.event.senha;
      && t == Ticket(TicketNumber(c, |s.queues[c]| + 1), tipo, now)
      && r.state == State(s.queues[c := s.queues[c] + [t]], s.sessions)
      && r.outcome.event == TicketGenerated(t, r.state.queues)
  {
    match ParseCategory(tipo)
    case None => Step(s, Reject(InvalidTicketType(tipo)))
    case Some(c) =>
      var t := Ticket(TicketNumber(c, |s.queues[c]| + 1), tipo, now);
      var queues := s.queues[c := s.queues[c] + [t]];
      Step(State(queues, s.sessions), Broadcast(TicketGenerated(t, queues)))
  }

  /** `chamar-senha`: take the head of a queue and make it the ticket the
      attendant holds at the given counter, creating the attendant's entry on
      first use and overwriting whatever ticket it held. */
  function CallNext(s: State, tipo: string, guiche: CounterId, id: AttendantId): (r: Step)
    requires WellFormed(s)
    ensures WellFormed(r.state)
    ensures r.outcome.Reject? <==> ParseCategory(tipo).None? || s.queues[ParseCategory(tipo).value] == []
    ensures ParseCategory(tipo).None? ==> r == Step(s, Reject(InvalidQueueType(tipo)))
    ensures ParseCategory(tipo).Some? && s.queues[ParseCategory(tipo).value] == [] ==>
      r == Step(s, Reject(EmptyQueue(tipo)))
    ensures r.outcome.Broadcast? ==>
      var c := ParseCategory(tipo).value;
      var q := s.queues[c];
      && r.state == State(s.queues[c := q[1..]], s.sessions[id := Session(guiche, Some(q[0]))])
      && r.outcome.event == TicketCalled(q[0], guiche, id, r.state.queues)
  {
    match ParseCategory(tipo)
    case None => Step(s, Reject(InvalidQueueType(tipo)))
    case Some(c) =>
      if |s.queues[c]| > 0 then
        var t := s.queues[c][0];
        var queues := s.queues[c := s.queues[c][1..]];
        var session := if id in s.sessions then s.sessions[id] else Session(guiche, None);
        var sessions := s.sessions[id := session.(guiche := guiche, senhaAtual := Some(t))];
        Step(State(queues, sessions), Broadcast(TicketCalled(t, guiche, id, queues)))
      else
        Step(s, Reject(EmptyQueue(tipo)))
  }

  /** `finalizar-atendimento`: the attendant lets go of the ticket they hold,
      keeping their counter. */
  function FinishService(s: State, senha: Ticket, id: AttendantId): (r: Step)
    requires WellFormed(s)
    ensures WellFormed(r.state)
    ensures r.outcome.Broadcast? <==> Holds(s.sessions, id, senha.numero)
    ensures r.outcome.Reject? ==> r == Step(s, Reject(NoTicketToFinish))
    ensures r.outcome.Broadcast? ==>
      && r.state == State(s.queues, s.sessions[id := Session(s.sessions[id].guiche, None)])
      && r.outcome.event == ServiceFinished(senha, id, s.queues)
  {
    if Holds(s.sessions, id, senha.numero) then
      var sessions := s.sessions[id := s.sessions[id].(senhaAtual := None)];
      Step(State(s.queues, sessions), Broadcast(ServiceFinished(senha, id, s.queues)))
    else
      Step(s, Reject(NoTicketToFinish))
  }

  /** `redirecionar-senha`: the attendant sends the ticket back to the tail of
      another queue. The ticket appended is the one the client supplied, whose
      number matched the held one; its fields are kept as they are. */
  function Redirect(s: State, senha: Ticket, novoTipo: string, id: AttendantId): (r: Step)
    requires WellFormed(s)
    ensures WellFormed(r.state)
    ensures r.outcome.Broadcast? <==> Holds(s.sessions, id, senha.numero) && ParseCategory(novoTipo).Some?
    ensures !Holds(s.sessions, id, senha.numero) ==> r == Step(s, Reject(NoTicketToRedirect))
    ensures Holds(s.sessions, id, senha.numero) && ParseCategory(novoTipo).None? ==>
      r == Step(s, Reject(InvalidRedirectType))
    ensures r.outcome.Broadcast? ==>
      var c := ParseCategory(novoTipo).value;
      && r.state == State(s.queues[c := s.queues[c] + [senha]], s.sessions[id := Session(s.sessions[id].guiche, None)])
      && r.outcome.event == TicketRedirected(senha, novoTipo, id, r.state.queues)
  {
    if Holds(s.sessions, id, senha.numero) then
      match ParseCategory(novoTipo)
      case Some(c) =>
        var queues := s.queues[c := s.queues[c] + [senha]];
        var sessions := s.sessions[id := s.sessions[id].(senhaAtual := None)];
        Step(State(queues, sessions), Broadcast(TicketRedirected(senha, novoTipo, id, queues)))
      case None => Step(s, Reject(InvalidRedirectType))
    else
      Step(s, Reject(NoTicketToRedirect))
  }

  /** An inbound request, one per socket.io event the server listens to. */
  datatype Request =
    | GenerateTicket(tipo: string, now: Timestamp)
    | CallNextTicket(tipo: string, guiche: CounterId, atendenteId: AttendantId)
    | FinishTicket(senha: Ticket, atendenteId: AttendantId)
    | RedirectTicket(senha: Ticket, novoTipo: string, atendenteId: AttendantId)

  /** Dispatch a request to its handler. A rejected request changes nothing,
      no request removes an attendant's entry, and only a call changes an
      attendant's counter. */
  function Apply(s: State, req: Request): (r: Step)
    requires WellFormed(s)
    ensures WellFormed(r.state)
    ensures r.outcome.Reject? ==> r.state == s
    ensures s.sessions.Keys <= r.state.sessions.Keys
    ensures !req.CallNextTicket? ==>
      forall id :: id in s.sessions ==> r.state.sessions[id].guiche == s.sessions[id].guiche
  {
    match req
    case GenerateTicket(tipo, now) => Generate(s, tipo, now)
    case CallNextTicket(tipo, guiche, id) => CallNext(s, tipo, guiche, id)
    case FinishTicket(senha, id) => FinishService(s, senha, id)
    case RedirectTicket(senha, novoTipo, id) => Redirect(s, senha, novoTipo, id)
  }

  /** The event loop: requests are handled one after the other, each to
      completion. */
  function Run(s: State, reqs: seq<Request>): (r: State)
    requires WellFormed(s)
    ensures WellFormed(r)
    decreases |reqs|
  {
    if reqs == [] then s else Run(Apply(s, reqs[0]).state, reqs[1..])
  }
}
