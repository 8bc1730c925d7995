# Kierki: a verified model of the card-game server and its clients

Kierki is a server and a client for a four-player trick-taking game. This project models the whole path of a game, from
the rules to the bytes on a connection, and proves that the parts fit together:

* the game of the server: hands, table, turn, tricks, penalties, rounds (`Cards`, `Rules`, `Deck`, `Game`,
  `GameInvariant`, `GameRuns`, `EarlyStop`);
* the session protocol: seats, worker roles, mailboxes, timeouts, dropped connections, replay after a reconnect
  (`ServerState`, `Session`, `SessionRuns`), and the game under every sequence of callbacks, whatever the clients send
  (`CallbackRuns`); the order of play with the sides by name (`TurnOrder`), and what each callback does to mailboxes,
  roles, orders to quit and the answer to the thread (`Effects`);
* the automatic client and its view of the game (`Client`, `Views`, `Delivery`);
* the system of one server and any number of automatic clients over FIFO channels, with every interleaving of
  connecting, delivering, timing out, dropping and cleaning up (`System`, `SystemProof`, `SystemRuns`), down to the bytes
  of a mailbox and the client that reads them (`EndToEnd`);
* the wire format: the grammar as nine regular expressions, the printers, the parser with its forward and backward
  decoders (`Jobs`, `Wire`, `Regex`, `Grammar`, `Parser`, `Printer`, `Reading`, `Stream`, `ScenarioFile`);
* framing with back-pressure (`Framing`) and the outgoing queue with its flush before closing (`Worker`, `IOWorker`);
* the objects of the program as classes whose methods update fields in place and are proved against the functions
  above (`WorkerMgr`, `Server`, `Player`, `AutoClient`, `Framing`, `Worker`, `IOWorker`).

The results that everything else leads to:

1. `CallbackRuns.EveryJobIsLegible`: over every sequence of callbacks, whatever clients send and in whatever order, the
   game stays in the state of a legal run and every job handed to a worker is one its client can read, until the server
   stops. `CallbackRuns.LegibleIffInTime` says exactly when this fails afterwards: a move, or an introduction for the last
   free seat, that comes after the last trick is answered with the trick number 14. `CallbackRuns.LateMoveRun` is such a
   run, from the start to WRONG14. `Server.Server.Perform` ties the methods of the server to these runs.
2. `SystemProof.NeverWrong`: over all interleavings with automatic clients the server never sends WRONG, every message is
   one its client can read, and no job is ever addressed to a missing worker. `SystemProof.ClientsAgree`: each seated client
   that has read its messages agrees with the server about its hand, its turn and the trick.
   `SystemProof.ReconnectIsSound`: so does a client that takes over a seat in the middle of a round.
   `SystemRuns.SystemCanFinish`: from every reachable state the game can be brought to its end. `EndToEnd.Deliver`: the
   printed bytes of a mailbox, cut anywhere, lead the client object to just that state, up to the end of the game.
3. `TurnOrder.TurnsInRuns` and `TricksInRuns`: in every run the cards of a trick come from north, east, south and west in
   turn, beginning with the leader, and the trick goes to the side that was dealt its winning card.
4. `Effects`: for each callback exactly who is told what, who is ordered to quit, who is let go and what the thread is
   answered. `EndOrderedInRuns`: whatever ends the game orders everybody to quit. `LeftWithoutWork`: no worker leaves its
   seat or clean-up for good with work undone. `TimerAsks`: a timeout asks the side to move again, and nobody else.
5. `GameRuns.RunsAreGood` with `OverAfter52`, `SomebodyCanMove`, `PointsAreConserved`, `ScoresInRuns` and `CanFinish`: for
   every sequence of moves the state is what the log of taken tricks and the table say it is, cards and points are conserved,
   somebody can always move, and the game is over after exactly 52 accepted moves per round.
6. `Printer.PrintThenParse` and `Grammar.Unambiguous`: whatever may be sent is read back as the message that was sent, and
   no text has two readings, although fields are written without separators.
7. `Framing.IOWorkerHandler.Serve`: however the byte stream is cut and whatever callbacks are refused, the handler finishes
   the messages of the stream in order, each once and with the callback and the arguments it asks for. Once it is let, it
   finishes them all if and only if each fits into the limit and all but the last are understood;
   `Framing.ServeUnknownFirst` is a run in which an unknown message costs the introduction behind it. `EndToEnd.Answer`:
   what a client sends is always handled, as just its messages.
8. `Worker.FlushBeforeClose` and `Worker.FlushedIffExiting`: an order to quit closes a connection only after everything
   pushed before it has been sent, and this is owed to `finalize` setting `exiting` first: whenever an order has been given
   and jobs from before it are unsent, the promise holds if and only if the game is over and the flush is still ahead.
   `Worker.LostBehindAShutGate` is a run that loses a job without any error. `IOWorker.IOWorker.Turn`: a turn of the loop
   sends every job there is or none, all of them exactly when the gate is open on an open connection.
9. `SessionRuns.ServedIffUnseated`: every seated worker stays served under a callback if and only if it is not a second
   introduction by one of them. `SessionRuns.PoliteRunsAreSound` follows this over whole runs, and
   `SessionRuns.SecondIntroRun` is a run from the start after which such an introduction has left a seat without a worker.

Conventions. Cards are identified by rank and colour, as in `isMoveLegal` and `rmCardIfPresent`; `Card::operator==`
compares ranks only and serves the comparison of ranks in `whoTakes`. Scenarios are well formed: not empty, each deal a partition of
the 52 cards into four hands of 13. A mailbox of the model is the queue of a worker together with its connection. Each
callback under the server's lock is one atomic step. A lookup in the worker map that would throw is recorded in the field
`unknown`; the invariants show when it stays empty.

## Model

| member | source | states |
|---|---|---|
| Cards.TurnsInvertsNth | common/utils.cpp:152-166 | the four sides follow each other in a cycle: from any side each side is reached by exactly one number of turns below four, and four turns lead back |
| TurnOrder.TurnsGoRound | common/utils.cpp:152-166 | the k-th turn from the i-th side of north, east, south, west is that of the side k places on |
| TurnOrder.TurnsInRuns | server/server.cpp:206-208 | in every run of the callbacks, until the server stops: the i-th card on the table was dealt to the side i places after the leader and to nobody else, and the side to move is as many places on as there are cards |
| TurnOrder.TricksInRuns | server/server.cpp:209-219 | the same of every trick of the round, and a trick goes to the side that was dealt the card that takes it |
| TurnOrder.NextIsAsked | server/server.cpp:206-249 | after the first, second and third card the side one place on is to move, and it alone is asked |
| TurnOrder.TakerIsAsked | server/server.cpp:209-249 | after the fourth card everybody is told the taker, its penalty alone grows, by the cost of the trick, and it is asked |
| TurnOrder.LastCardScores | server/server.cpp:220-231 | at the end of a round each side is told the scores of the round and totals that have grown by them, and the scores start again from 0 |
| Cards.RmCardIfPresent | common/utils.cpp:189-197 | the hand without the first card equal in colour and value, unchanged when there is none |
| Cards.RmIntersection | common/utils.cpp:183-187 | every card of the table is removed from the hand |
| Cards.RmCounts | common/utils.cpp:189-197 | removing a held card takes away exactly one occurrence of it, removing another card changes nothing |
| Cards.RmAllDisjoint | common/utils.cpp:183-187 | removing cards that are not held has no effect |
| Rules.IsMoveLegal | server/game_rules.cpp:19-38 | accepts a card exactly when it is held and follows suit if the hand can |
| Rules.WhoTakes | server/game_rules.cpp:40-108 | the taker played a card of the led colour that no card of that colour beats, and the penalty is the sum over the cards plus the cost of the trick |
| Rules.Penalty | server/game_rules.cpp:54-107 | the loops over the table add up the penalty of each of the seven modes |
| Rules.TakerPlayedTheHighest | server/game_rules.cpp:46-53 | with distinct cards exactly one card takes the trick, and the reported side is the one that played it, also when the turn has advanced by the four cards of the table |
| Rules.EverythingIsTheSum | server/game_rules.cpp:92-104 | mode EVERYTHING costs what the six other modes cost together on the same trick |
| Deck.DealIsWorthTheTotal | server/game_rules.cpp:55-105 | a dealt deck is worth 13, 13, 20, 16, 18, 20 or 100 points in modes 1 to 7 |
| Deck.DealtOnce | common/utils.cpp:115-150 | in a proper deal no card is held by two sides or twice by one |
| Deck.CardsPenaltyPermutation | server/game_rules.cpp:54-107 | the penalty of cards does not depend on their order |
| Deck.SortedDealIsProper | common/utils.cpp:115-150 | well-formed scenarios exist: the sorted deck, thirteen cards to a side, is a proper deal |
| GameInvariant.PlaceKeeps | server/server.cpp:206-208 | playing a legal card keeps cards, penalties, turn and log consistent |
| GameInvariant.ResolveKeeps | server/server.cpp:209-219 | taking a trick keeps them consistent; the log recomputes leader, trick number, hands and penalties |
| GameInvariant.RoundEnds | server/server.cpp:220-230 | at the end of a round the four penalties sum to the constant of the mode, and no entry is missing |
| GameInvariant.NextRoundKeeps | server/server.cpp:220-244 | closing a round prepares the next one or ends the game with the grand total of all rounds |
| GameInvariant.TableOwners | server/server.cpp:206-208 | each card on the table was held by the side that played it and by nobody else |
| GameRuns.AcceptKeeps | server/server.cpp:206-249 | an accepted move keeps the invariant and makes exactly one step of progress |
| GameRuns.MoveAvailable | server/server.cpp:195-204 | the side to move always holds a card the rules accept |
| GameRuns.RunsAreGood | server/server.cpp:164-250 | any sequence of moves keeps the invariant, and the server is done after exactly 52 accepted moves per round |
| GameRuns.OverAfter52 | server/server.cpp:220-235 | in every run at most 52 moves per round are accepted, and the game is over just when that many have been |
| GameRuns.SomebodyCanMove | server/server.cpp:195-204 | in every run, until the game is over, the side to move holds a card the rules accept |
| GameRuns.PointsAreConserved | server/server.cpp:206-231 | in every run the points handed out and the points outstanding add up to the mode's total, and the grand totals to the sum of the constants |
| GameRuns.ScoresInRuns | server/server.cpp:220-230 | in every run the last card of a round brings every side the scores and totals that add up |
| GameRuns.CanFinish | server/server.cpp:195-249 | from every state of a run some sequence of moves ends the game |
| GameRuns.RoundScoresAddUp | server/server.cpp:220-230 | the SCORE and TOTAL sent at the end of a round add up to the mode's constant and to the sum of all constants so far |
| GameRuns.AcceptOutsValid | server/server.cpp:214-247 | every job an accepted move sends lies in the ranges the client's grammar accepts, and none is WRONG |
| CallbackRuns.EveryJobIsLegible | server/server.cpp:164-306 | after every sequence of callbacks, with any moves, introductions and exits by any clients: until the server stops, the game is in the state of a legal run and every job in every mailbox lies in the ranges the client's grammar accepts |
| CallbackRuns.LegibleIffInTime | server/server.cpp:164-306 | in every lawful state, stopped or not, a callback leaves all mail legible if and only if it is not a move by the worker of a side, nor an introduction that takes the last free seat, after the last trick of the scenario |
| CallbackRuns.RunsInTimeAreLegible | server/server.cpp:164-306 | so the mail is legible after every run without such late callbacks, even when the server has been told to stop |
| CallbackRuns.LateMoveRun | server/server.cpp:195-200 | a late move: for every scenario and side some run from the start hands the side's worker WRONG14, which the client's grammar does not accept |
| CallbackRuns.PerformLawful | server/server.cpp:164-462 | each callback keeps game, seats, mailboxes and stored deal lawful together |
| EarlyStop.FurtherMovesNeeded | server/server.cpp:75-124 | finds a card that costs something in the mode, or any card in the modes that cost by the trick |
| EarlyStop.EarlyStopIsExact | server/server.cpp:75-124 | at a trick boundary the test is true if and only if penalties of the round are outstanding |
| EarlyStop.EarlyStopInRuns | server/server.cpp:75-124 | the same in every run |
| Session.NobodyIsMissing | server/server.cpp:166 | with four players connected every side has a worker |
| Session.RunKeeps | server/server.cpp:252-453 | after any callbacks sides and workers are matched one to one, the count of players is right, active workers are seated, and no job was addressed to worker -1 |
| Session.PlayerIntroKeeps | server/server.cpp:252-306 | an introduction keeps seats, roles and mailboxes matched |
| Session.GrandExitKeeps | server/server.cpp:369-428 | so does a worker's report of its exit |
| Session.PlayerTrickedKeeps | server/server.cpp:164-204 | so does a move, whatever the worker's role |
| SessionRuns.AtMostOnce | server/server.cpp:369-428 | however often a worker reports its exit, it leaves its seat and is queued for erasure at most once |
| SessionRuns.IntroServesIffUnseated | server/server.cpp:254-258 | with all four connected an introduction keeps every seated worker served if and only if it does not come from one of them; before, it always does |
| SessionRuns.ServedIffUnseated | server/server.cpp:164-462 | the same for every callback |
| SessionRuns.SoundIffPolite | server/server.cpp:164-462 | seats, mailboxes and the sides remembered for workers in cleanup all stay matched under a callback if and only if it is not a second introduction by a seated worker or by one that has been turned away |
| SessionRuns.PoliteRunsAreSound | server/server.cpp:164-462 | so they are after every run without such introductions |
| SessionRuns.SecondIntroLosesTheMailbox | server/server.cpp:254-258 | a seated worker that introduces itself again and leaves keeps its seat, and the next job for that side finds no worker |
| SessionRuns.FourJoin | server/server.cpp:259-277 | four connections and introductions from the start fill the table, with everything matched |
| SessionRuns.SecondIntroRun | server/server.cpp:254-258 | a run from the start reaches a seat whose next job finds no worker, for each side |
| Effects.TimeoutAsks | server/server.cpp:437-453 | a timeout adds just the open question to the mailbox of the worker at the side to move, if it is that worker's timeout and all four are connected; it orders a worker to quit that has not introduced itself; nothing else changes |
| Effects.TimeoutAsksIff | server/server.cpp:437-453 | a mailbox changes if and only if its worker sits at the side to move, has timed out, and all four are connected |
| Effects.TimerAsks | server/server.cpp:437-453 | the same in every reachable state of the system |
| Effects.ExitAnswered | server/server.cpp:369-428 | a worker from a seat is let go if and only if it has no work and all four were connected or the game is over, one in clean-up if and only if it has no work and all four are; it is then shut down and queued for erasure, and otherwise waits in clean-up with its mailbox |
| Effects.ExitFreesTheSeat | server/server.cpp:384-389 | the seat of an active worker becomes free and its side is remembered; no other seat changes |
| Effects.LeftWithoutWork | server/server.cpp:369-428 | in every run a worker that is shut down or queued for erasure got there by its own report, without work if it came from a seat or from clean-up |
| Effects.EndOrders | server/server.cpp:362-367 | orders to quit are never taken back, and the callback that ends the game leaves every worker that is not queued for erasure with its order |
| Effects.EndOrderedInRuns | server/io_worker_mgr.cpp:62-71 | in every run that stops the server one callback has done it, by which everybody was ordered to quit, and the orders stand |
| Effects.RefusedIsTold | server/server.cpp:296-303 | a client that asks for a taken seat is sent one BUSY, which names just the sides that have a worker; only its role changes |
| Effects.SecondIntroIsOrdered | server/server.cpp:254-258 | a second introduction waits until all four are connected; then it costs the worker its role, it is ordered to quit, and nobody is told anything |
| Effects.SeatedIsTold | server/server.cpp:259-294 | what each seated worker is told when a client takes a free seat: the start of the game, or the replay to the newcomer and the question to the side to move |
| Effects.NobodyElseIsTold | server/server.cpp:259-294 | workers without a seat are told nothing then |
| Effects.MoveWaits | server/server.cpp:166 | a move is done with if and only if all four are connected; before that it changes nothing |
| Effects.RefusedMoveIsTold | server/server.cpp:195-204 | a move out of turn, for another trick, of a card not held or against the suit brings one WRONG with the open trick's number to whoever has the seat, and changes nothing else |
| Effects.AcceptedMoveIsTold | server/server.cpp:206-249 | any other move is accepted; each seat is told what it brings and nobody else is told anything |
| Effects.NextIsTold | server/server.cpp:206-249 | after the first three cards just one worker is told anything: the question goes to the side one place on |
| Effects.StrangersMoveIsOrdered | server/server.cpp:169-175 | a worker that sends a move before an introduction is ordered to quit and told nothing |
| Effects.BadMessageIsOrdered | server/server.cpp:455-462 | a worker whose client is not understood is ordered to quit if and only if all four are connected or the game is over; nothing else changes |
| Effects.NewWorker | server/server.cpp:338-360 | a new connection gets an unused number, an empty mailbox and no seat |
| Effects.CleanerTakesAway | server/io_worker_mgr.cpp:94-105 | the mailboxes of exactly the workers queued for erasure go |
| Client.PickIsLegal | client/strategy.cpp:11-32 | the strategy's card is one the rules accept, and it erases the card the server erases |
| Client.WrongUndoes | client/player_auto.cpp:33-42 | after a refusal the client holds the cards it held before and answers the same trick again with a legal card |
| Client.BusyEnds | client/client.cpp:188-196 | whatever comes behind BUSY is not read, and nothing more is sent |
| Client.SuccessIsTotal | client/client.cpp:128-206 | a client takes the end of the connection for a success if and only if TOTAL has come and no DEAL, TRICK or SCORE since |
| Views.HandIsReplayed | server/server.cpp:278-285 | the server's hand is the stored deal without the cards of the logged tricks and without those on the table |
| Views.ReplayBringsInStep | server/server.cpp:278-285 | the replayed deal and tricks bring a fresh client in step, whether or not its seat has played in the open trick |
| Views.TakenMessage | client/player_auto.cpp:52-65 | TAKEN leaves a client with the server's hand, also when the surplus card of a replayed deal has to go |
| Views.MoverIsDone | client/player_auto.cpp:20-26 | what the client to move has sent is one legal answer to the open trick |
| Views.AskMessage | client/player_auto.cpp:20-26 | a client in step answers TRICK once and ignores a repeated one |
| Delivery.AcceptView | server/server.cpp:206-249 | an accepted move and the messages it sends keep each client in step, and the next one to move answers |
| Delivery.LastView | server/server.cpp:220-235 | a client that has read what follows the last card of the last round has seen the game to its end |
| Delivery.JobsForMove | server/server.cpp:206-249 | which jobs of an accepted move each side gets, in order: the question, the trick, and at the end of a round the scores and the next deal |
| SystemProof.DoKeeps | server/server.cpp:164-462 | every step of server, clients and channels keeps the invariant of the system |
| SystemProof.NeverWrong | server/server.cpp:164-306 | over all interleavings no WRONG is sent, clients can read every message, and every job finds its worker |
| SystemProof.ClientsAgree | client/player_auto.cpp:20-65 | over all interleavings every seated client that has read its messages agrees with the server about hand, turn and trick; when the server stops all rounds are played and every seated client sees the game through |
| SystemProof.ReconnectIsSound | server/server.cpp:278-294 | in every reachable state the replayed deal and tricks bring a fresh client in step, and leave of the stored deal the side's hand and its card on the table |
| EndToEnd.SeatedMail | server/io_worker.cpp:166-196 | in every reachable state the mailbox of a seated worker can be printed, and reading it brings its client into no undefined state |
| EndToEnd.Deliver | client/client.cpp:118-198 | in every reachable state the mailbox of a seated worker is printed, in any visiting order of tables, as bytes that mean just its jobs; cut anywhere, they leave the client object where the jobs one by one lead: in step with the server, or, when the server has stopped, through with the game |
| EndToEnd.ReplyIsUnderstood | server/io_worker_handler.cpp:85-114 | the text of an introduction or a move fits, contains no separator and leads to no callback but the one with its arguments |
| EndToEnd.Answer | server/io_worker_handler.cpp:47-145 | what a client object has sent, cut anywhere and with any refusals, is handled as just its messages, in order and each once, and all of them once the handler is let; the handler never gives the client up |
| SystemRuns.NeverStalls | server/server.cpp:437-453 | with four players connected the player to move has been asked, and its answer is one step of progress |
| SystemRuns.SystemCanFinish | server/server.cpp:164-306 | from every reachable state some connections, deliveries and reads end the game, with all rounds played and every seated client seeing it through |
| SystemProof.MoveTogether | server/server.cpp:206-249 | the accepted move seen by all four clients at once |
| SystemProof.TimerKeeps | server/server.cpp:437-453 | asking again after a timeout does no harm |
| SystemProof.DropKeeps | server/server.cpp:369-428 | a dropped connection does no harm |
| SystemProof.SitKeeps | server/server.cpp:259-293 | a client that takes a seat, first or again, is brought in step |
| Grammar.TextMatches | common/network_msg_parser.cpp:20-30 | the printers stay inside the grammar |
| Grammar.MatchesIsText | common/network_msg_parser.cpp:20-30 | whatever a pattern accepts is the text of a message of its kind |
| Grammar.Unambiguous | common/network_msg_parser.cpp:20-30 | a text has at most one reading on each side of the connection |
| Grammar.CardsUnambiguous | common/network_msg_parser.cpp:16-18 | cards are read off the end of a text in one way only |
| Grammar.LastCard | common/network_msg_parser.cpp:16 | card codes are suffix-free |
| Grammar.EntriesUnambiguous | common/network_msg_parser.cpp:28-29 | a list of sides and numbers is determined by its text, whatever the numbers |
| Grammar.RnMeans | common/network_msg_parser.cpp:18 | the pattern of trick numbers accepts 1 to 13 |
| Grammar.NumMeans | common/network_msg_parser.cpp:28-29 | the pattern of scores accepts the decimal texts of all natural numbers |
| Parser.ReadBusy | common/network_msg_parser.cpp:54-59 | the sides of BUSY, one by one |
| Parser.ReadDeal | common/network_msg_parser.cpp:60-75 | the thirteen cards of DEAL, read forward |
| Parser.ReadTrick | common/network_msg_parser.cpp:76-100 | the trick number is told from a leading ten by the character behind it, and the cards are read forward |
| Parser.ReadMove | common/network_msg_parser.cpp:101-113 | a client's TRICK, read backward |
| Parser.ReadTaken | common/network_msg_parser.cpp:118-132 | TAKEN, read backward, gives the cards in the order in which they were played |
| Parser.ReadScores | common/network_msg_parser.cpp:133-154 | four sides with their numbers, digits to the next side |
| Parser.ParseNetMsg | common/network_msg_parser.cpp:34-163 | returns the printed fields in order for every text of the grammar, and nothing for any other text |
| Parser.Reassembled | common/network_msg_parser.cpp:34-163 | the keyword and the values of the parsed fields, put together in order, are the text that was parsed |
| Printer.GenBusy | common/send_job.cpp:20-24 | the text of BUSY |
| Printer.GenScores | common/send_job.cpp:42-49 | the entries of SCORE or TOTAL in the order in which the table is visited |
| Printer.GenMsg | common/send_job.cpp:20-116 | the text of each message, with the separator |
| Printer.WireMeans | common/send_job.cpp:20-116 | the fields of a message that may be sent are in the ranges of the grammar and mean just this message |
| Printer.PrintThenParse | common/send_job.cpp:20-116 | printing and parsing give back the fields, and they mean the message that was sent |
| Printer.DifferentMessagesDiffer | common/send_job.cpp:20-116 | different messages have different texts, in whatever order tables are visited |
| Printer.LettersOfSides | common/send_job.cpp:20-116 | the letters of the sides, the digits of the modes and the separator |
| Printer.LettersOfCards | common/card.cpp:33-51 | the letters of ranks and colours, in the order in which cards are written |
| Printer.DigitsOfScores | common/send_job.cpp:42-49 | sides and numbers of score tables |
| Reading.CardTextIsRead | common/card.cpp:33-51 | `fromString` reads back what `toString` prints |
| Reading.ReadCardIsPrinted | common/card.cpp:47-51 | whatever `fromString` reads is printed as it was read |
| Reading.ValOfNoText | client/client.cpp:145 | reading a printed number gives the number |
| ScenarioFile.ParseScenario | common/utils.cpp:115-150 | a scenario is read back from its lines, whatever else follows on each of them |
| ScenarioFile.ParseHand | common/utils.cpp:136-145 | the first thirteen cards of a line |
| Stream.FirstBreak | client/client.cpp:118-123 | a stream read to its first line break has been read to the end of its first message |
| Stream.WiresMean | server/io_worker.cpp:166-196 | whatever order tables are visited in, the printed forms of a readable mailbox mean just its messages |
| Stream.PrintMail | server/io_worker.cpp:166-196 | the bytes sent for a mailbox are the texts of just these messages, each with its separator, in order |
| WorkerMgr.IOWorkerMgr.SendJob | server/io_worker_mgr.cpp:73-77 | the job is appended to the worker's queue and nothing else changes |
| WorkerMgr.IOWorkerMgr.SendKill | server/io_worker_mgr.cpp:50-60 | the worker's kill flag is set and nothing else changes |
| WorkerMgr.IOWorkerMgr.Finish | server/io_worker_mgr.cpp:62-71 | exactly the workers that are not queued for erasure are told to quit |
| WorkerMgr.IOWorkerMgr.EraseWorker | server/io_worker_mgr.cpp:79-86 | a worker is queued for erasure, once |
| WorkerMgr.IOWorkerMgr.ClearPass | server/io_worker_mgr.cpp:94-105 | the queued workers leave the worker map; the pass is the last when the game is over and nobody is left |
| WorkerMgr.IOWorkerMgr.SetRole | server/io_worker_mgr.cpp:118-124 | the role of an existing worker changes |
| WorkerMgr.IOWorkerMgr.SpawnNewWorker | server/io_worker_mgr.h:65-80 | the new worker gets an unused number, an empty queue and its role |
| Server.Server.constructor | server/server.cpp:24-53 | the initial fields |
| Server.Server.PrepareRound | server/server.cpp:155-162 | the round's mode, hands and starting side; trick 1 and an empty log |
| Server.Server.UpdatePenalties | server/server.cpp:147-149 | the round's penalties are added to the totals, missing entries being created |
| Server.Server.ClearTmpPenalties | server/server.cpp:151-153 | all four penalties of the round become 0 |
| Server.Server.Finalize | server/server.cpp:362-367 | the game is over and every worker that is not queued for erasure has its order to quit, once |
| Server.Server.TakeTrick | server/server.cpp:209-219 | winner, penalty, log and the message to everybody |
| Server.Server.EndRound | server/server.cpp:220-244 | scores, totals and the next deal, or the end |
| Server.Server.PlayCard | server/server.cpp:206-249 | an accepted card leads to the state and the jobs about which the invariants are proved |
| Server.Server.TryMove | server/server.cpp:195-204 | a move out of turn, for another trick or against the rules is refused and leaves the game unchanged |
| Server.Server.PlayerTricked | server/server.cpp:164-250 | the callback for a move, for each role of the worker |
| Server.Server.PlayerIntro | server/server.cpp:252-306 | the callback for an introduction: start of the game, replay or refusal |
| Server.Server.Replay | server/server.cpp:278-285 | the stored deal and the logged tricks are sent in order |
| Server.Server.GrandExitCallback | server/server.cpp:369-428 | the callback for an exit, for each role of the worker |
| Server.Server.ExecMutexed | server/server.cpp:430-435 | over consistent seats a worker may send just when every side has a worker or the game is over |
| Server.Server.HandleTimeout | server/server.cpp:437-453 | the player to move is asked again, a silent stranger is told to quit |
| Server.Server.HandleWrongMessage | server/server.cpp:455-462 | a worker whose client is not understood is told to quit |
| Server.Server.ForwardConnection | server/server.cpp:338-360 | a new connection gets a worker of its own |
| Server.Server.FurtherMovesNeeded | server/server.cpp:75-124 | the early-stop test on the server's fields |
| Server.Server.Run | server/server.cpp:55-73 | the first round prepared, the listening worker spawned |
| Server.Server.Perform | server/server.cpp:164-462 | every callback that can occur finds what it relies on, in every state the server can be in, and does what the function of the callback says |
| Server.RunsAreReady | server/server.cpp:164-250 | what the callbacks assume when they index the scenario holds after every sequence of callbacks |
| Player.Strategy.NextMove | client/strategy.cpp:11-32 | the first card of the led colour, or the first card, or the last one when leading, is erased and returned |
| Player.PlayerAuto.TrickMsg | client/player_auto.cpp:20-26 | a trick already answered is ignored, another one is answered once |
| Player.PlayerAuto.DealMsg | client/player_auto.cpp:28-31 | the new hand |
| Player.PlayerAuto.WrongMsg | client/player_auto.cpp:33-42 | the refused card comes back to the hand |
| Player.PlayerAuto.TakenMsg | client/player_auto.cpp:52-65 | a replayed trick takes its cards out of the hand, a live one confirms the oldest card played |
| AutoClient.AutoClient.constructor | client/client.cpp:75-77 | a new client introduces itself, once |
| AutoClient.AutoClient.ChooseCard | client/client.cpp:237-247 | a card is sent only when the client has been asked, and only once |
| AutoClient.AutoClient.OnMessage | client/client.cpp:128-196 | the text of a message changes the client as the message does |
| AutoClient.AutoClient.Receive | client/client.cpp:118-198 | wherever the stream is cut, the client ends up as if it had been given the messages one by one |
| AutoClient.AutoClient.Listen | client/client.cpp:84-210 | a whole stream, arriving in pieces cut anywhere, leaves the client where its messages one by one lead; a client that has been turned away reads no further |
| Framing.CutOff | server/io_worker_handler.cpp:61-66 | the first message cut off a stream is the first message of the stream |
| Framing.IOWorkerHandler.ReadBytes | server/io_worker_handler.cpp:51-82 | bytes read are the finished messages, at most one waiting message and a beginning without separator |
| Framing.CallOf | server/io_worker_handler.cpp:85-114 | which callback a message leads to, and with which arguments |
| Framing.IOWorkerHandler.Dispatch | server/io_worker_handler.cpp:83-139 | a refused message stays, an accepted one is finished |
| Framing.IOWorkerHandler.SocketAction | server/io_worker_handler.cpp:47-145 | at most the first message is finished, nothing is lost, nothing complete is left lying, and a handler that wants to quit does nothing; it hangs up on an overlong message and at the end of the stream, and ends when it is let go for an overlong one |
| Framing.IOWorkerHandler.Serve | server/io_worker_handler.cpp:47-145 | for any cuts and refusals a prefix of the stream's messages is finished, each with the callback it asks for accepted once; once the handler is let, it reaches the first message that does not fit or passes the first that is not understood, so that all are finished if and only if each fits and all but the last are understood; and it quits if and only if some message does not fit or is not understood, or the unfinished rest exceeds the limit |
| Framing.ReachesAll | server/io_worker_handler.cpp:56-95 | the number of messages reached is the length of the stream if and only if each fits and all but the last are understood |
| Framing.UnknownStopsTheRest | server/io_worker_handler.cpp:88-95 | of the stream X, IAMN only X is reached, although both fit and IAMN is understood |
| Framing.ServeUnknownFirst | server/io_worker_handler.cpp:88-95 | the run on this stream: X is finished, the handler quits, the introduction is not handled |
| Framing.Overlong | server/io_worker_handler.cpp:56-60 | the limit is exceeded only when the next message has more than 998 bytes, or by a long unfinished rest when all messages have been finished |
| Worker.JobQueue.PushNextJob | server/job_queue.cpp:30-33 | the job goes to the end of the queue |
| Worker.JobQueue.PopNextJob | server/job_queue.cpp:16-23 | jobs leave in the order in which they were pushed |
| Worker.FlushBeforeClose | server/io_worker.cpp:106-117 | when orders to quit come after exiting, a connection is closed by an order only after everything pushed before it has been sent, in order |
| Worker.RunSound | server/io_worker.cpp:76-138 | in every run, until a send fails, the jobs pushed are those sent, those outgoing and those queued, in this order |
| Worker.FlushedIffExiting | server/io_worker.cpp:106-117 | wherever a worker stands with its order given and jobs from before it unsent on an open connection, the promise holds in every continuation if and only if the game is over and the flush is not already behind it |
| Worker.BrokenByAShutGate | server/io_worker.cpp:106-117 | with the game not over some continuation closes the connection by the order with jobs from before it unsent |
| Worker.LostBehindAShutGate | server/io_worker.cpp:198-202 | for any job a run from the start in which the job is taken off the queue, the order closes the connection with the gate shut, and the thread ends without error and with the job unsent |
| Worker.EndsOnBadMessage | server/io_worker_handler.cpp:88-95 | a message that is not understood ends the thread in the same turn once the server lets it go, with the connection left open to the destructor |
| IOWorker.IOWorker.DrainQueue | server/io_worker.cpp:106-108 | the queue is moved, in order, behind the outgoing jobs |
| IOWorker.IOWorker.HandleQueue | server/io_worker.cpp:166-196 | while sending is allowed and succeeds every outgoing job is sent in order |
| IOWorker.IOWorker.ObeyOrder | server/io_worker.cpp:111-117 | second drain, second flush, close |
| IOWorker.IOWorker.Turn | server/io_worker.cpp:76-138 | one turn of the thread's loop, with or without a timeout, is a run of the steps about which the flush is proved; unless a send fails or a corrupted peer is let go, it empties the queue and sends all jobs if the gate is open on a connection that is open when the thread wakes, and otherwise sends none and keeps all; a thread that ends has sent every job it took if and only if nothing is outgoing |
| IOWorker.IOWorker.Wake | server/io_worker_handler.cpp:47-145 | a hang-up closes the connection and the turn goes on; only a corrupted peer is reported at once, and the thread ends if it is let go |
| IOWorker.IOWorker.ReportExit | server/io_worker.cpp:118-123 | a worker that wants to quit reports whether a message waits or a job is unsent on an open connection, and ends if it is let go; it has then sent every job it took if and only if nothing is outgoing, which a report of no work guarantees on an open connection and does not on a closed one |
| IOWorker.IOWorker.NewJob | server/io_worker.cpp:51-53 | a job given to the worker is the step that pushes it |
| IOWorker.IOWorker.ScheduleDeath | server/io_worker.cpp:55-57 | the order to quit is the step that gives it |
| IOWorker.IOWorker.HasWork | server/io_worker.cpp:198-202 | with the connection open there is work exactly when a message waits or some job that was pushed is neither sent nor still in the queue; with it closed, exactly when a message waits |

## Left out

- SystemProof.NeverWrong: runs of the system end when the server is exiting, every client is an automatic one and introduces itself once per connection. A worker that has reported its exit reads nothing more, because server/io_worker_handler.cpp:48 returns at once when it wants to quit; the messages its client had still sent are lost with the connection.
- SystemRuns.NeverStalls: says that the next answer is on its way, and SystemCanFinish that some schedule ends the game, not that the scheduler chooses it.
- Session.RunKeeps: internal I/O errors (server/server.cpp:371-375 with handleSysErr) do not occur.
- Framing.IOWorkerHandler.Serve: the connection stays open; what happens at its end is in the contract of SocketAction.
- Worker.FlushBeforeClose: sends succeed and the connection has not been closed for another reason; the thread and those who push are steps of a relation on values, because they interleave between any two operations on the queue. IOWorker.Turn ties the loop as written to these steps when nobody else moves, NewJob and ScheduleDeath what others do between its turns.
- SessionRuns.SoundIffPolite: also calls impolite the second introduction of a worker that has been turned away. It harms no seat, as IntroServesIffUnseated shows, and the order to quit given in the same callback closes that worker before it reads again (server/io_worker.cpp:105-117); kill flags do not restrict which callbacks occur here.
- IOWorker.IOWorker.Turn: reading messages within a turn is the part of Framing, and what the socket brings is a parameter here; the report of the exit after the loop (server/io_worker.cpp:140) repeats the one in the loop, whose effects on the server are in GrandExitCallback; an error of poll or of the pipe and the arithmetic of the next timeout are not modelled.
- EndToEnd.Deliver: the client's socket does not fail while the pieces arrive, and what the client sends goes out at once.
- CallbackRuns.EveryJobIsLegible: speaks of the time before the server stops; LegibleIffInTime says what holds afterwards, where the promise fails.
- Parser.ReadDeal, Parser.ReadMove and the other decoders: called for texts their pattern has accepted, as in the source.
- AutoClient.AutoClient.OnMessage: for texts the grammar accepts; on any other text the source reads the first element of an empty list, and EndToEnd.Deliver shows that the server sends no such text.
- Client.PickIsLegal: choosing from an empty hand is undefined in the source; the state `broken` stands for it, and ClientsAgree shows that it is not reached by seated clients.
- ScenarioFile.ParseScenario: files with missing lines, missing characters or other characters where a scenario is expected, which the source does not check either.
- Sockets, poll, pipes, signals, address resolution and partial sends are nondeterministic steps or are not part of this model.
- Threads, mutexes and the cleaner's semaphore: callbacks are atomic, and nothing is claimed about the end of the shutdown.
- Clocks: a timeout is a step that may happen at any time.
- signalRole wakes threads and changes no state.
- BUSY, SCORE and TOTAL are printed in an arbitrary order of the sides, as an unordered map yields them.
- PlayerConsole, Logger, Message, the command lines of both programs and reading files are user interface and plumbing.
- Integers are unbounded: a round hands out at most 100 points and trick numbers stay below 15; only the totals of very long scenarios could reach the width of `int`.
