/**
 Properties of whole runs of the server: queues are first-in first-out,
 tickets that only accumulate are numbered 1, 2, 3, ... and so never share
 a number, numbers are reused once tickets leave a queue, and attendant
 entries are never removed.
 */
module Properties {
  import opened Wrappers
  import opened Tickets
  import opened Transitions

  /** The tickets a handled request took off the head of queue c. */
  function Removed(s: State, req: Request, c: Category): seq<Ticket>
    requires WellFormed(s)
  {
    match req
    case CallNextTicket(tipo, guiche, id) =>
      var r := CallNext(s, tipo, guiche, id);
      if ParseCategory(tipo) == Some(c) && r.outcome.Broadcast? then [r.outcome.event.senha] else []
    case _ => []
  }

  /** The tickets a handled request appended to queue c. */
  function Added(s: State, req: Request, c: Category): seq<Ticket>
    requires WellFormed(s)
  {
    match req
    case GenerateTicket(tipo, now) =>
      var r := Generate(s, tipo, now);
      if ParseCategory(tipo) == Some(c) && r.outcome.Broadcast? then [r.outcome.event.senha] else []
    case RedirectTicket(senha, novoTipo, id) =>
      var r := Redirect(s, senha, novoTipo, id);
      if ParseCategory(novoTipo) == Some(c) && r.outcome.Broadcast? then [senha] else []
    case _ => []
  }

  /** One request: what it removed from the head of a queue, followed by the
      new queue, is the old queue followed by what it appended. */
  lemma StepQueueLaw(s: State, req: Request, c: Category)
    requires WellFormed(s)
    ensures Removed(s, req, c) + Apply(s, req).state.queues[c] == s.queues[c] + Added(s, req, c)
  {
    match req
    case GenerateTicket(tipo, now) =>
    case CallNextTicket(tipo, guiche, id) =>
      var r := CallNext(s, tipo, guiche, id);
      if ParseCategory(tipo) == Some(c) && r.outcome.Broadcast? {
        assert [s.queues[c][0]] + s.queues[c][1..] == s.queues[c];
      }
    case FinishTicket(senha, id) =>
    case RedirectTicket(senha, novoTipo, id) =>
  }

  /** Everything a run took off the head of queue c, in order. */
  function Dequeued(s: State, reqs: seq<Request>, c: Category): seq<Ticket>
    requires WellFormed(s)
    decreases |reqs|
  {
    if reqs == [] then [] else Removed(s, reqs[0], c) + Dequeued(Apply(s, reqs[0]).state, reqs[1..], c)
  }

  /** Everything a run appended to queue c, in order. */
  function Enqueued(s: State, reqs: seq<Request>, c: Category): seq<Ticket>
    requires WellFormed(s)
    decreases |reqs|
  {
    if reqs == [] then [] else Added(s, reqs[0], c) + Enqueued(Apply(s, reqs[0]).state, reqs[1..], c)
  }

  /** FIFO: over any run, the tickets called from a queue, followed by what is
      left in it, are exactly the tickets it held at the start followed by
      the tickets appended to it, in order. So tickets are called in the
      order in which they entered the queue. */
  lemma {:induction false} RunQueueLaw(s: State, reqs: seq<Request>, c: Category)
    requires WellFormed(s)
    ensures Dequeued(s, reqs, c) + Run(s, reqs).queues[c] == s.queues[c] + Enqueued(s, reqs, c)
    ensures Dequeued(s, reqs, c) <= s.queues[c] + Enqueued(s, reqs, c)
    decreases |reqs|
  {
    if reqs != [] {
      var s1 := Apply(s, reqs[0]).state;
      StepQueueLaw(s, reqs[0], c);
      RunQueueLaw(s1, reqs[1..], c);
      var rm, ad := Removed(s, reqs[0], c), Added(s, reqs[0], c);
      var dq, eq := Dequeued(s1, reqs[1..], c), Enqueued(s1, reqs[1..], c);
      var q0, q1, qf := s.queues[c], s1.queues[c], Run(s1, reqs[1..]).queues[c];
      assert Dequeued(s, reqs, c) == rm + dq;
      assert Enqueued(s, reqs, c) == ad + eq;
      assert Run(s, reqs).queues[c] == qf;
      assert rm + q1 == q0 + ad;
      assert dq + qf == q1 + eq;
      SeqAssoc(rm, dq, qf, q1, q0, ad, eq);
    }
  }

  /** Splicing two queue laws end to end. */
  lemma SeqAssoc<T>(rm: seq<T>, dq: seq<T>, qf: seq<T>, q1: seq<T>, q0: seq<T>, ad: seq<T>, eq: seq<T>)
    requires rm + q1 == q0 + ad && dq + qf == q1 + eq
    ensures (rm + dq) + qf == q0 + (ad + eq)
    ensures rm + dq <= q0 + (ad + eq)
  {
    calc {
      (rm + dq) + qf;
      rm + (dq + qf);
      rm + (q1 + eq);
      (rm + q1) + eq;
      (q0 + ad) + eq;
    }
  }

  /** Two tickets that were generated one after the other into the same
      empty queue are called in that order. */
  lemma FifoTwoTickets(s: State, t1: string, now1: Timestamp, now2: Timestamp,
                       guiche1: CounterId, id1: AttendantId, guiche2: CounterId, id2: AttendantId)
    requires WellFormed(s)
    requires ParseCategory(t1).Some? && s.queues[ParseCategory(t1).value] == []
    ensures
      var s1 := Generate(s, t1, now1);
      var s2 := Generate(s1.state, t1, now2);
      var c1 := CallNext(s2.state, t1, guiche1, id1);
      var c2 := CallNext(c1.state, t1, guiche2, id2);
      && c1.outcome.Broadcast? && c1.outcome.event.senha == s1.outcome.event.senha
      && c2.outcome.Broadcast? && c2.outcome.event.senha == s2.outcome.event.senha
  {
  }

  /** Queue c holds the tickets numbered 1, 2, ..., in order. */
  predicate Sequential(q: seq<Ticket>, c: Category)
  {
    forall i :: 0 <= i < |q| ==> q[i].numero == TicketNumber(c, i + 1)
  }

  /** The request neither calls from queue c nor redirects into it; it may
      still generate, finish, or call and redirect elsewhere. */
  predicate LeavesNumbering(req: Request, c: Category)
  {
    && !(req.CallNextTicket? && ParseCategory(req.tipo) == Some(c))
    && !(req.RedirectTicket? && ParseCategory(req.novoTipo) == Some(c))
  }

  predicate AllLeaveNumbering(reqs: seq<Request>, c: Category)
  {
    forall i :: 0 <= i < |reqs| ==> LeavesNumbering(reqs[i], c)
  }

  /** Appending the next number to a queue numbered 1, 2, ... keeps it so. */
  lemma AppendSequential(q: seq<Ticket>, t: Ticket, c: Category)
    requires Sequential(q, c) && t.numero == TicketNumber(c, |q| + 1)
    ensures Sequential(q + [t], c)
  {
    var q' := q + [t];
    forall i | 0 <= i < |q'| ensures q'[i].numero == TicketNumber(c, i + 1) {
      if i < |q| {
        assert q'[i] == q[i];
      }
    }
  }

  /** Generating a ticket gives it the next number of a queue numbered
      1, 2, ..., and leaves the other queues alone. */
  lemma GenerateStepSequential(s: State, tipo: string, now: Timestamp, c: Category)
    requires WellFormed(s) && Sequential(s.queues[c], c)
    ensures Sequential(Generate(s, tipo, now).state.queues[c], c)
  {
    var r := Generate(s, tipo, now);
    if r.outcome.Broadcast? && ParseCategory(tipo) == Some(c) {
      AppendSequential(s.queues[c], r.outcome.event.senha, c);
    }
  }

  /** A request that neither calls from queue c nor redirects into it keeps
      queue c numbered 1, 2, ... */
  lemma StepKeepsSequential(s: State, req: Request, c: Category)
    requires WellFormed(s) && LeavesNumbering(req, c) && Sequential(s.queues[c], c)
    ensures Sequential(Apply(s, req).state.queues[c], c)
  {
    match req
    case GenerateTicket(tipo, now) =>
      GenerateStepSequential(s, tipo, now, c);
    case CallNextTicket(tipo, guiche, id) =>
      assert Apply(s, req).state.queues[c] == s.queues[c];
    case FinishTicket(senha, id) =>
      assert Apply(s, req).state.queues[c] == s.queues[c];
    case RedirectTicket(senha, novoTipo, id) =>
      assert Apply(s, req).state.queues[c] == s.queues[c];
  }

  /** While no request calls from queue c or redirects into it, a queue c
      numbered 1, 2, ... stays so. */
  lemma {:induction false} KeepsSequential(s: State, reqs: seq<Request>, c: Category)
    requires WellFormed(s) && AllLeaveNumbering(reqs, c) && Sequential(s.queues[c], c)
    ensures Sequential(Run(s, reqs).queues[c], c)
    decreases |reqs|
  {
    if reqs != [] {
      StepKeepsSequential(s, reqs[0], c);
      var s1 := Apply(s, reqs[0]).state;
      assert AllLeaveNumbering(reqs[1..], c) by {
        forall i | 0 <= i < |reqs[1..]| ensures LeavesNumbering(reqs[1..][i], c) {
          assert reqs[1..][i] == reqs[i + 1];
        }
      }
      KeepsSequential(s1, reqs[1..], c);
      assert Run(s, reqs) == Run(s1, reqs[1..]);
    }
  }

  /** In a queue numbered 1, 2, ... two positions hold different numbers. */
  lemma SequentialDistinctAt(q: seq<Ticket>, c: Category, i: int, j: int)
    requires Sequential(q, c) && 0 <= i < j < |q|
    ensures q[i].numero != q[j].numero
  {
    TicketNumberInjective(c, i + 1, c, j + 1);
  }

  /** From start-up, as long as no request calls from queue c or redirects
      into it, no two waiting tickets of category c share a number. */
  lemma GeneratedNumbersDistinct(reqs: seq<Request>, c: Category)
    requires AllLeaveNumbering(reqs, c)
    ensures var q := Run(Initial(), reqs).queues[c];
      forall i, j :: 0 <= i < j < |q| ==> q[i].numero != q[j].numero
  {
    var s0 := Initial();
    assert s0.queues[c] == [];
    KeepsSequential(s0, reqs, c);
    var q := Run(s0, reqs).queues[c];
    forall i, j | 0 <= i < j < |q| ensures q[i].numero != q[j].numero {
      SequentialDistinctAt(q, c, i, j);
    }
  }

  /** Numbers come from the current queue length, so once a ticket has been
      called a later one can repeat a number still waiting: after generating
      N001 and N002, calling N001 and generating again, the Normal queue
      holds two tickets numbered N002. */
  lemma NumberReuse(now0: Timestamp, now1: Timestamp, now2: Timestamp)
    ensures
      var reqs := [GenerateTicket("Normal", now0), GenerateTicket("Normal", now1),
                   CallNextTicket("Normal", "1", "A"), GenerateTicket("Normal", now2)];
      var q := Run(Initial(), reqs).queues[Normal];
      |q| == 2 && q[0].numero == q[1].numero == TicketNumber(Normal, 2)
  {
    var reqs := [GenerateTicket("Normal", now0), GenerateTicket("Normal", now1),
                 CallNextTicket("Normal", "1", "A"), GenerateTicket("Normal", now2)];
    var s0 := Initial();
    var s1 := Apply(s0, reqs[0]).state;
    var s2 := Apply(s1, reqs[1]).state;
    var s3 := Apply(s2, reqs[2]).state;
    var s4 := Apply(s3, reqs[3]).state;
    NumberReuseStates(now0, now1, now2);
    RunOne(s3, reqs[3..]);
    RunOne(s2, reqs[2..]);
    assert reqs[2..][1..] == reqs[3..];
    RunOne(s1, reqs[1..]);
    assert reqs[1..][1..] == reqs[2..];
    RunOne(s0, reqs);
  }

  /** The states of the number-reuse run, one handler at a time. */
  lemma NumberReuseStates(now0: Timestamp, now1: Timestamp, now2: Timestamp)
    ensures
      var s1 := Generate(Initial(), "Normal", now0).state;
      var s2 := Generate(s1, "Normal", now1).state;
      var s3 := CallNext(s2, "Normal", "1", "A").state;
      var s4 := Generate(s3, "Normal", now2).state;
      var t1 := Ticket(TicketNumber(Normal, 1), "Normal", now0);
      var t2 := Ticket(TicketNumber(Normal, 2), "Normal", now1);
      && s1.queues[Normal] == [t1]
      && s2.queues[Normal] == [t1, t2]
      && s3.queues[Normal] == [t2]
      && s4.queues[Normal] == [t2, Ticket(TicketNumber(Normal, 2), "Normal", now2)]
  {
    assert ParseCategory("Normal") == Some(Normal);
    var t1 := Ticket(TicketNumber(Normal, 1), "Normal", now0);
    var t2 := Ticket(TicketNumber(Normal, 2), "Normal", now1);
    var s1 := Generate(Initial(), "Normal", now0).state;
    assert s1.queues[Normal] == [t1];
    var s2 := Generate(s1, "Normal", now1).state;
    assert s2.queues[Normal] == [t1, t2];
    var s3 := CallNext(s2, "Normal", "1", "A").state;
    assert s3.queues[Normal] == [t2];
  }

  /** With number reuse and equal timestamps a ticket can be waiting and held
      at once: generate N001, call it at counter 1 by attendant A, generate
      again at the same instant, and the new N001 equals the one A holds. */
  lemma HeldWhileWaiting(now: Timestamp)
    ensures
      var t := Ticket(TicketNumber(Normal, 1), "Normal", now);
      var s1 := Generate(Initial(), "Normal", now).state;
      var s2 := CallNext(s1, "Normal", "1", "A").state;
      var s3 := Generate(s2, "Normal", now).state;
      && s3.queues[Normal] == [t]
      && "A" in s3.sessions && s3.sessions["A"].senhaAtual == Some(t)
  {
    assert ParseCategory("Normal") == Some(Normal);
    var t := Ticket(TicketNumber(Normal, 1), "Normal", now);
    var s1 := Generate(Initial(), "Normal", now).state;
    assert s1.queues[Normal] == [t];
    var s2 := CallNext(s1, "Normal", "1", "A").state;
    assert s2.queues[Normal] == [] && s2.sessions["A"].senhaAtual == Some(t);
  }

  /** Continuing that run, attendant B at counter 2 calls the new N001, and
      two attendants hold the same ticket. */
  lemma HeldTwice(now: Timestamp)
    ensures
      var t := Ticket(TicketNumber(Normal, 1), "Normal", now);
      var s1 := Generate(Initial(), "Normal", now).state;
      var s2 := CallNext(s1, "Normal", "1", "A").state;
      var s3 := Generate(s2, "Normal", now).state;
      var s4 := CallNext(s3, "Normal", "2", "B").state;
      && "A" in s4.sessions && "B" in s4.sessions
      && s4.sessions["A"].senhaAtual == s4.sessions["B"].senhaAtual == Some(t)
  {
    HeldWhileWaiting(now);
    assert ParseCategory("Normal") == Some(Normal);
  }

  /** A call does not check whether the attendant still holds a ticket, so a
      second call drops the first ticket: after generating N001 and N002 and
      attendant A calling twice, N001 is neither waiting nor held. */
  lemma CallOverwriteDrops(now0: Timestamp, now1: Timestamp)
    ensures
      var t2 := Ticket(TicketNumber(Normal, 2), "Normal", now1);
      var s1 := Generate(Initial(), "Normal", now0).state;
      var s2 := Generate(s1, "Normal", now1).state;
      var s3 := CallNext(s2, "Normal", "1", "A").state;
      var s4 := CallNext(s3, "Normal", "1", "A").state;
      && s4.queues == map[Normal := [], Priority := [], Pickup := []]
      && s4.sessions == map["A" := Session("1", Some(t2))]
      && TicketNumber(Normal, 1) != t2.numero
  {
    assert ParseCategory("Normal") == Some(Normal);
    var t1 := Ticket(TicketNumber(Normal, 1), "Normal", now0);
    var t2 := Ticket(TicketNumber(Normal, 2), "Normal", now1);
    var s1 := Generate(Initial(), "Normal", now0).state;
    assert s1.queues[Normal] == [t1];
    var s2 := Generate(s1, "Normal", now1).state;
    assert s2.queues[Normal] == [t1, t2];
    var s3 := CallNext(s2, "Normal", "1", "A").state;
    assert s3.queues == s2.queues[Normal := [t2]];
    assert s3.sessions == map["A" := Session("1", Some(t1))];
    var s4 := CallNext(s3, "Normal", "1", "A").state;
    assert s4.queues == s3.queues[Normal := []];
    assert s4.queues == Initial().queues[Normal := []];
    TicketNumberInjective(Normal, 1, Normal, 2);
  }

  /** A successful call leaves the attendant holding the called ticket, so
      finishing or redirecting it by number passes the guard. */
  lemma CallThenHolds(s: State, tipo: string, guiche: CounterId, id: AttendantId)
    requires WellFormed(s)
    ensures var r := CallNext(s, tipo, guiche, id);
      r.outcome.Broadcast? ==> Holds(r.state.sessions, id, r.outcome.event.senha.numero)
  {
  }

  /** After a successful finish the attendant holds nothing, so a second
      finish or a redirect by that attendant fails the guard. */
  lemma FinishReleases(s: State, senha: Ticket, id: AttendantId, numero: string)
    requires WellFormed(s)
    ensures var r := FinishService(s, senha, id);
      r.outcome.Broadcast? ==> !Holds(r.state.sessions, id, numero)
  {
  }

  /** After a successful redirect the attendant holds nothing either. */
  lemma RedirectReleases(s: State, senha: Ticket, novoTipo: string, id: AttendantId, numero: string)
    requires WellFormed(s)
    ensures var r := Redirect(s, senha, novoTipo, id);
      r.outcome.Broadcast? ==> !Holds(r.state.sessions, id, numero)
  {
  }

  /** Running a request sequence handles its first request, then the rest. */
  lemma RunOne(s: State, reqs: seq<Request>)
    requires WellFormed(s) && reqs != []
    ensures Run(s, reqs) == Run(Apply(s, reqs[0]).state, reqs[1..])
  {
  }

  /** Attendant entries are never removed over any run: there is no
      clean-up when an attendant goes away. */
  lemma {:induction false} SessionsPersist(s: State, reqs: seq<Request>)
    requires WellFormed(s)
    ensures s.sessions.Keys <= Run(s, reqs).sessions.Keys
    decreases |reqs|
  {
    if reqs != [] {
      SessionsPersist(Apply(s, reqs[0]).state, reqs[1..]);
    }
  }
}
