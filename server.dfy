/**
 The server's state object and its four request handlers, which update the
 queues and the attendant registry in place. Each handler returns what it
 emits: an event broadcast to all clients, or an error for the requester.
 Each is proved to do exactly what the corresponding function of
 `Transitions` describes.
 */
module Server {
  import opened Wrappers
  import opened Tickets
  import opened Transitions

  class TicketServer {
    /** `filas`: one FIFO queue per category. */
    var queues: Queues
    /** `atendentesLogados`: attendant id to counter and held ticket. */
    var sessions: map<AttendantId, Session>

    /** The server's whole state as a value, for stating what each handler
        does; it is not what a client is sent. */
    function Snapshot(): State
      reads this
    {
      State(queues, sessions)
    }

    ghost predicate Valid()
      reads this
    {
      WellFormed(Snapshot())
    }

    /** `update-filas` on connection: a newly connected client is sent the
        three queues and nothing about the attendants. */
    function ConnectionSnapshot(): (filas: Queues)
      reads this
      requires Valid()
      ensures forall c: Category :: c in filas && filas[c] == Snapshot().queues[c]
    {
      queues
    }

    constructor ()
      ensures Valid()
      ensures Snapshot() == Initial()
    {
      var filas := map[Normal := [], Priority := [], Pickup := []];
      EveryCategoryIn(filas);
      queues := filas;
      sessions := map[];
    }

    /** `gerar-senha` */
    method Generate(tipo: string, now: Timestamp) returns (out: Outcome)
      requires Valid()
      modifies this
      ensures Valid()
      ensures Step(Snapshot(), out) == Transitions.Generate(old(Snapshot()), tipo, now)
    {
      var category := ParseCategory(tipo);
      if category.None? {
        return Reject(InvalidTicketType(tipo));
      }
      var c := category.value;
      // The lookup in the prefix table always succeeds here (PrefixOf).
      var prefix := PrefixOf(tipo).value;
      var num := |queues[c]| + 1;
      var numero := [prefix] + PadStart(DecimalDigits(num), 3, '0');
      var novaSenha := Ticket(numero, tipo, now);
      queues := queues[c := queues[c] + [novaSenha]];
      out := Broadcast(TicketGenerated(novaSenha, queues));
    }

    /** `chamar-senha` */
    method CallNext(tipo: string, guiche: CounterId, id: AttendantId) returns (out: Outcome)
      requires Valid()
      modifies this
      ensures Valid()
      ensures Step(Snapshot(), out) == Transitions.CallNext(old(Snapshot()), tipo, guiche, id)
    {
      var category := ParseCategory(tipo);
      if category.None? {
        return Reject(InvalidQueueType(tipo));
      }
      var c := category.value;
      if |queues[c]| > 0 {
        var senhaChamada := queues[c][0];
        queues := queues[c := queues[c][1..]];
        if id !in sessions {
          sessions := sessions[id := Session(guiche, None)];
        }
        sessions := sessions[id := sessions[id].(guiche := guiche)];
        sessions := sessions[id := sessions[id].(senhaAtual := Some(senhaChamada))];
        out := Broadcast(TicketCalled(senhaChamada, guiche, id, queues));
      } else {
        out := Reject(EmptyQueue(tipo));
      }
    }

    /** `finalizar-atendimento` */
    method FinishService(senha: Ticket, id: AttendantId) returns (out: Outcome)
      requires Valid()
      modifies this
      ensures Valid()
      ensures Step(Snapshot(), out) == Transitions.FinishService(old(Snapshot()), senha, id)
    {
      if id in sessions && sessions[id].senhaAtual.Some? && sessions[id].senhaAtual.value.numero == senha.numero {
        sessions := sessions[id := sessions[id].(senhaAtual := None)];
        out := Broadcast(ServiceFinished(senha, id, queues));
      } else {
        out := Reject(NoTicketToFinish);
      }
    }

    /** `redirecionar-senha` */
    method Redirect(senha: Ticket, novoTipo: string, id: AttendantId) returns (out: Outcome)
      requires Valid()
      modifies this
      ensures Valid()
      ensures Step(Snapshot(), out) == Transitions.Redirect(old(Snapshot()), senha, novoTipo, id)
    {
      if id in sessions && sessions[id].senhaAtual.Some? && sessions[id].senhaAtual.value.numero == senha.numero {
        var category := ParseCategory(novoTipo);
        if category.Some? {
          var c := category.value;
          queues := queues[c := queues[c] + [senha]];
          sessions := sessions[id := sessions[id].(senhaAtual := None)];
          out := Broadcast(TicketRedirected(senha, novoTipo, id, queues));
        } else {
          out := Reject(InvalidRedirectType);
        }
      } else {
        out := Reject(NoTicketToRedirect);
      }
    }
  }

  /** Scenario: three Normal tickets are numbered N001, N002, N003 and wait
      in that order; the first call hands N001 to attendant A at counter 1. */
  method ScenarioGenerateAndCall(t0: Timestamp, t1: Timestamp, t2: Timestamp)
  {
    var server := new TicketServer();
    NumberExampleN001();
    var e1 := server.Generate("Normal", t0);
    var n1 := e1.event.senha;
    assert n1.numero == "N001";
    var e2 := server.Generate("Normal", t1);
    var n2 := e2.event.senha;
    var e3 := server.Generate("Normal", t2);
    var n3 := e3.event.senha;
    assert server.queues[Normal] == [n1, n2, n3];
    var called := server.CallNext("Normal", "1", "A");
    assert called.event.senha == n1;
    assert server.queues[Normal] == [n2, n3];
    assert server.sessions["A"] == Session("1", Some(n1));
  }

  /** Scenario: finishing releases the held ticket and leaves the queues. */
  method ScenarioFinish(t0: Timestamp, t1: Timestamp)
  {
    var server := new TicketServer();
    var e1 := server.Generate("Normal", t0);
    var n1 := e1.event.senha;
    assert server.queues[Normal] == [n1];
    var e2 := server.Generate("Normal", t1);
    var n2 := e2.event.senha;
    assert server.queues[Normal] == [n1, n2];
    var called := server.CallNext("Normal", "1", "A");
    assert server.queues[Normal] == [n2];
    assert server.sessions["A"] == Session("1", Some(n1));
    assert Holds(server.sessions, "A", n1.numero);
    var finished := server.FinishService(n1, "A");
    assert finished.Broadcast?;
    assert server.sessions["A"] == Session("1", None);
    assert server.queues[Normal] == [n2];
  }

  /** Scenario: calling an empty queue is an error that registers nobody. */
  method ScenarioEmptyCall(t0: Timestamp)
  {
    var server := new TicketServer();
    var e1 := server.Generate("Normal", t0);
    assert server.queues[Priority] == [];
    var empty := server.CallNext("Prioritário", "2", "B");
    assert empty == Reject(EmptyQueue("Prioritário"));
    assert "B" !in server.sessions;
  }

  /** Scenario: a redirected ticket goes to the tail of its new queue and
      frees the attendant, who then has nothing left to finish. */
  method ScenarioRedirect(t0: Timestamp)
  {
    var server := new TicketServer();
    var e1 := server.Generate("Normal", t0);
    var n1 := e1.event.senha;
    var called := server.CallNext("Normal", "2", "B");
    assert called.event.senha == n1;
    var redirected := server.Redirect(n1, "Prioritário", "B");
    assert redirected.Broadcast?;
    assert server.queues[Priority] == [n1] && server.queues[Normal] == [];
    assert server.sessions["B"] == Session("2", None);

    var again := server.FinishService(n1, "B");
    assert again == Reject(NoTicketToFinish);
  }
}
