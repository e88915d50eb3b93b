# Ticket-queue server, modelled in Dafny

This project models the in-memory state machine of a service-counter ticketing
server (`server/server.js`). The server keeps one FIFO queue of waiting tickets
for each of three categories, `Normal`, `Prioritário` and `Retirada`. This is the
`filas` object. It also keeps a registry of attendants, `atendentesLogados`,
from an attendant id to the counter (`guiche`) they work at and the ticket they
currently hold (`senhaAtual`). Four request handlers change this state:

- `gerar-senha` numbers a new ticket and appends it to its category's queue.
  The number is the prefix `N`/`P`/`R` followed by (queue length + 1),
  zero-padded to at least three digits.
- `chamar-senha` takes the head of a queue and binds it to the attendant and
  counter.
- `finalizar-atendimento` clears the attendant's held ticket if its number
  matches.
- `redirecionar-senha` checks that the ticket matches, then checks the target
  category. It then appends the ticket to the tail of the target queue and
  clears the attendant's held ticket.

Each handler either broadcasts an event carrying the new queues, or sends an
error to the requester alone and changes nothing.

Files:

- `tickets.dfy` (module `Tickets`): categories, prefixes and ticket-number formatting.
- `transitions.dfy` (module `Transitions`): the state as a value, and each handler
  as a function from the old state to the new state and the outcome. Also the
  dispatcher `Apply` and the event loop `Run`.
- `server.dfy` (module `Server`): class `TicketServer`, whose fields `queues`
  and `sessions` the four handler methods update in place, step by step as the
  source does. Each method is proved equal to its function in `Transitions`.
  Four client methods replay a generate/call/finish/redirect walk-through
  using only the methods' contracts.
- `properties.dfy` (module `Properties`): properties of whole runs. These are
  the FIFO queue law, sequential and distinct numbering while nothing is
  called from or redirected into a queue, the number-reuse and dropped-ticket
  scenarios, and attendant entries never being removed.
- `wrappers.dfy` (module `Wrappers`): `Option`, which stands for `null`.

What the model shows:

- Ticket numbers are reused. Numbering comes from the current queue length. So
  after a call, a newly generated ticket can repeat the number of a ticket that
  is still waiting (`Properties.NumberReuse`: two `N002` tickets wait at once).
  The model keeps this behaviour as written.
- Uniqueness holds only while nothing is called from or redirected into
  that queue (`Properties.GeneratedNumbersDistinct`).
- With reuse and equal timestamps the same ticket value can be waiting and
  held at once (`Properties.HeldWhileWaiting`), and then held by two
  attendants (`Properties.HeldTwice`).
- A call overwrites whatever ticket the attendant held, so that ticket is
  dropped: it is neither waiting nor held (`Properties.CallOverwriteDrops`).
- A redirect appends the ticket object the client sent, not the stored one. The
  two need only share a `numero`.

## Model

| member | source | states |
|---|---|---|
| `Tickets.ParseCategory` | server/server.js:44-48 | the queue-table check accepts exactly the three category names, and returns the category whose name is the input |
| `Tickets.ParseName` | server/server.js:23-27 | each category's name parses back to that category |
| `Tickets.PrefixOf` | server/server.js:50-56 | the prefix table has the same keys as the queue table, and gives each category its own prefix; so the "prefix not found" branch can never be taken |
| `Tickets.PrefixInjective` | server/server.js:50 | different categories have different prefixes |
| `Tickets.DecimalDigits` | server/server.js:59 | `toString` of a number yields at least one character and no more than n + 1 |
| `Tickets.DecimalDigitsSpell` | server/server.js:59 | `toString` yields decimal digits that denote n, with no leading zero unless n is 0 |
| `Tickets.PadStart` | server/server.js:59 | `padStart` yields a string of length max(length, width) |
| `Tickets.PadStartShape` | server/server.js:59 | `padStart` keeps the original string at the end and puts only the fill character before it |
| `Tickets.LeadingZeroValue` | server/server.js:59 | a leading '0' does not change the value of a digit string |
| `Tickets.ZeroPadValue` | server/server.js:59 | zero-padding keeps a digit string a digit string, with the same value |
| `Tickets.TicketNumber` | server/server.js:50-59 | a ticket number is at least four characters long and starts with the category prefix |
| `Tickets.TicketNumberSpells` | server/server.js:58-59 | after the prefix come at least three digits (exactly three below 1000) that spell the sequence number |
| `Tickets.TicketNumberInjective` | server/server.js:50-59 | equal ticket numbers mean the same category and the same sequence number |
| `Tickets.NumberExampleN001` | server/server.js:58-59 | the first Normal ticket is `N001` |
| `Tickets.NumberExampleP012` | server/server.js:58-59 | the twelfth Prioritário ticket is `P012` |
| `Tickets.NumberExampleR1000` | server/server.js:58-59 | the thousandth Retirada ticket is `R1000`: no padding above three digits |
| `Transitions.Channel` | server/server.js:46-145 | an outcome (lines 46, 65, 74, 90, 98, 112, 119, 133, 141 and 145) goes out on a channel ending in `-error` exactly when it is a rejection |
| `Transitions.Message` | server/server.js:46-145 | the two invalid-category messages end with the name sent, and the empty-queue message quotes it right after its fixed opening; the body gives the fixed texts of lines 119, 141 and 145 |
| `Transitions.Initial` | server/server.js:23-30 | at start-up all three queues are empty and no attendant is registered |
| `Transitions.Generate` | server/server.js:40-66 | an unknown category is rejected with the state unchanged; otherwise the ticket numbered prefix + padded (old length + 1), stamped with the given time, is appended to that queue only, the sessions are unchanged, and the event carries the new queues |
| `Transitions.CallNext` | server/server.js:70-101 | an unknown category or an empty queue is rejected, each with its own error and the state unchanged; otherwise the old head is returned, the queue becomes its tail, and the attendant's entry (created if absent) becomes this counter holding that ticket, overwriting any previous ticket; no other queue or attendant changes |
| `Transitions.FinishService` | server/server.js:104-122 | succeeds exactly when the attendant exists and holds a ticket with the given number; then only that attendant's held ticket becomes none, keeping the counter and the queues; otherwise it is rejected with the state unchanged |
| `Transitions.Redirect` | server/server.js:125-148 | the held-ticket check comes first and the target-category check second, each with its own error and the state unchanged; on success the client's ticket is appended unchanged to the tail of the target queue and the attendant's held ticket is cleared |
| `Transitions.Apply` | server/server.js:40-148 | any rejected request leaves the state unchanged; no request removes an attendant entry; only a call changes an attendant's counter |
| `Transitions.Run` | server/server.js:33-155 | handling requests one after the other keeps a queue for every category |
| `Server.TicketServer.ConnectionSnapshot` | server/server.js:37 | a newly connected client is sent the queues alone, one for every category, as the server holds them |
| `Server.TicketServer.constructor` | server/server.js:23-30 | the new server holds the start-up state |
| `Server.TicketServer.Generate` | server/server.js:40-66 | the in-place `gerar-senha` handler produces exactly the new state and outcome of `Transitions.Generate` |
| `Server.TicketServer.CallNext` | server/server.js:70-101 | the in-place `chamar-senha` handler (`shift`, then creating the entry and setting `guiche` and `senhaAtual`) produces exactly `Transitions.CallNext` |
| `Server.TicketServer.FinishService` | server/server.js:104-122 | the in-place `finalizar-atendimento` handler produces exactly `Transitions.FinishService` |
| `Server.TicketServer.Redirect` | server/server.js:125-148 | the in-place `redirecionar-senha` handler (`push`, then clearing `senhaAtual`) produces exactly `Transitions.Redirect` |
| `Properties.StepQueueLaw` | server/server.js:62 | for one request, what it took off the head of a queue plus the new queue equals the old queue plus what it appended (lines 62, 80 and 130) |
| `Properties.RunQueueLaw` | server/server.js:79-80 | FIFO over any run: the tickets called from a queue, followed by what remains, equal its initial contents followed by everything appended, in order; the called tickets are a prefix of that sequence |
| `Properties.FifoTwoTickets` | server/server.js:58-62 | two tickets generated one after the other into an empty queue are called in that order |
| `Properties.AppendSequential` | server/server.js:58-62 | appending the next number to a queue numbered 1, 2, ... keeps it numbered so |
| `Properties.GenerateStepSequential` | server/server.js:58-62 | generating keeps every queue numbered 1, 2, ... |
| `Properties.StepKeepsSequential` | server/server.js:58-62 | a request that neither calls from queue c nor redirects into it (a generate, a finish, or a call or redirect naming another category) keeps queue c numbered 1, 2, ... |
| `Properties.KeepsSequential` | server/server.js:58-62 | over a run in which no request calls from queue c or redirects into it, queue c numbered 1, 2, ... stays so |
| `Properties.SequentialDistinctAt` | server/server.js:58-59 | in such a queue, two positions hold different numbers |
| `Properties.GeneratedNumbersDistinct` | server/server.js:58-59 | from start-up, as long as no request calls from queue c or redirects into it, no two waiting tickets of category c share a number |
| `Properties.NumberReuse` | server/server.js:58 | generate, generate, call, generate on Normal leaves two waiting tickets both numbered `N002` |
| `Properties.NumberReuseStates` | server/server.js:58-87 | the Normal queue after each request of that run: `[N001]`, `[N001, N002]`, `[N002]`, then two tickets numbered N002 stamped now1 and now2 |
| `Properties.CallThenHolds` | server/server.js:107 | after a successful call the attendant passes the finish/redirect guard (`Transitions.Holds`, lines 107 and 128) for the called ticket's number |
| `Properties.FinishReleases` | server/server.js:107-109 | after a successful finish the attendant fails that guard for every number |
| `Properties.RedirectReleases` | server/server.js:128-131 | after a successful redirect the attendant fails that guard for every number |
| `Properties.HeldWhileWaiting` | server/server.js:58-87 | generate, call by attendant A, generate at the same instant on Normal: the only waiting ticket equals the one A holds |
| `Properties.HeldTwice` | server/server.js:79-87 | continuing that run with a call by attendant B, A and B hold the same ticket |
| `Properties.CallOverwriteDrops` | server/server.js:83-87 | generate twice, then two calls by attendant A: all queues are empty and A holds only `N002`, so `N001` is nowhere |
| `Properties.SessionsPersist` | server/server.js:151-154 | over any run no attendant entry is removed: leaving does not clean up |

## Left out

- Express static serving, HTTP server creation, CORS and `server.listen`/`PORT` (lines 3-20, 157-161): I/O and configuration.
- socket.io transport (`io.on('connection')`, `socket.emit`, `io.emit`): each handler returns its outcome. A `Broadcast` stands for `io.emit` to all clients and a `Reject` for `socket.emit` to the requester. Delivery is not modelled. The initial `update-filas` payload sent on connection is the current queues alone (`TicketServer.ConnectionSnapshot`).
- Logging (`console.log` / `console.error`): no effect on state.
- `new Date()` (line 61): becomes the `now` parameter, a `Timestamp`, an integer the model does no arithmetic on.
- The disconnect handler (lines 151-154): it changes nothing. `Properties.SessionsPersist` states the consequence.
- Concurrency: the event loop runs each handler to completion, so the model is sequential (`Transitions.Run`).
- JavaScript property lookup through the prototype chain. An inherited name such as `toString`, `constructor` or `__proto__` passes the `filas[tipo]` check. In `gerar-senha` and `redirecionar-senha` it then throws at `push`. In `chamar-senha` it throws at `shift` when the inherited value has a positive `length` (`constructor`, `hasOwnProperty`); otherwise (`toString`, `__proto__`) the source answers with the empty-queue message. The same kind of key used as an attendant id reaches inherited properties. The model treats categories as a closed set and ids as plain map keys: such a name is an invalid category (`InvalidTicketType`, `InvalidQueueType` or `InvalidRedirectType`) or an ordinary id.
- Malformed payloads: a missing `senha` throws at `senha.numero` only when the attendant holds a ticket, since otherwise the guard stops before it and the error is sent; values that are not strings are compared loosely. Client tickets are modelled as well-formed `Ticket` values and ids and counters as strings.
- The "internal error" branch of `gerar-senha` (lines 52-56): `Tickets.PrefixOf` proves it cannot be reached, so the model has no error value for it.
- Invariants the server does not enforce are not proved. Number reuse with equal timestamps breaks "a ticket is never both waiting and held" and "at most one attendant holds a ticket" (`Properties.HeldWhileWaiting`, `Properties.HeldTwice`). A call that overwrites a held ticket breaks "every ticket not yet finished is waiting or held" (`Properties.CallOverwriteDrops`).
- Array capacity: a JavaScript array holds at most 2^32 - 1 elements and a `push` beyond that throws `RangeError`. The model's queues are unbounded sequences.
