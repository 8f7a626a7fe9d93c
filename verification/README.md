# kdapp, verified

A Dafny model of the parts of kdapp that must survive a DAG reorganisation, and of the protocols and
codecs around them:

- the engine that runs many episodes, keeps a rollback stack per episode and a map from accepting block
  to the actions it caused, prunes old episodes and undoes whole blocks;
- four episodes it runs: two tic-tac-toe games with a sliding window of six symbols, the merchant with
  its invoices, subscriptions and persistent tables, and the bonded comment board;
- the off-chain path to an engine: signed messages, a retrying sender, datagram and stream routers;
- the on-chain path to an engine: payload headers, the nonce search, collection of merged transactions
  and dispatch to several engines;
- the wallet's greedy coin selection and the bond descriptor codec.

`dafny verify dfyconfig.toml` checks everything.

## How it is organised

| files | content |
|---|---|
| Episode | what an episode is, as a record of functions, and the execute/rollback contract its trait promises (`Undoes`), up to a notion of sameness each episode chooses |
| EngineSpec, Engine, OnChain | the engine as functions of its state; the engine as a class over mutable maps and wrapper objects, proved to compute those functions; what an episode has executed, told from the transactions |
| EngineFrame, EngineShape | what every run keeps of any episodes at all, whatever their rollbacks do |
| EngineReorg, EngineTransparency, EngineChain | what a reverted fork leaves behind; when it leaves nothing; that the current chain alone determines the engine, however many reorganisations led to it |
| EngineSlices, EngineEpisodes, EngineLife, EngineBirth | that episodes do not interfere; the chain and fork theorems for one episode, and what is left of one that filtering found too old; when exactly the current chain determines an episode, from any moment of its life or from its creation |
| EngineAccounting, EngineAge, EngineStacks | how stacks and revert map keep the same books; how old an episode can be; what holds of an episode and its pending rollbacks in every run |
| TicTacToe, TicTacToeGrid, TicTacToeRules, TicTacToeGame, AgentTicTacToe, AgentTicTacToeGame | the two games as functions and as classes over a 3 by 3 array, their rules in coordinates, their exact undo, what holds for any number of players, and their bisimulation |
| Merchant, MerchantDecisions, MerchantInvariants, MerchantUndo, MerchantReversal | the merchant as functions with the records each operation writes, which commands it accepts and what they change, its indices, its undo, and when exactly a rollback undoes a command if the indices disagree |
| MerchantStorage, ReceiptEpisode, MerchantRestart, MerchantDatabase | its tables, the class that updates fields and tables in place, restarting, and how fields and tables agree |
| MerchantEngine, MerchantReorg, MerchantFork, MerchantLife | the engine run with the database threaded through it for one merchant: its reorganisations, what a reverted fork leaves, and when exactly the current chain determines merchant and tables |
| MerchantOrphan, MerchantTogether, MerchantRivals | an invoice left in the tables by a reverted fork; any number of merchants over one database, when exactly they stay sound, and a run of three that does not |
| CommentBoard, BoardDecisions, BondAccounting, ContractCommentBoard, BondDescriptor | the board as functions, which commands it accepts and what they change, its bond books, the class, and the descriptor codec |
| Instances | the engine theorems for the games, the merchant and the board |
| Tlv, Routing, Routers, Delivery | the message codec, what a router does with bytes, the router class with both loops and the sender, and the protocol over an unreliable network |
| OffChain | the off-chain path end to end: from senders' scripts over network and router to what the engine holds |
| Payloads, Proxy, Listener | the generator's headers and nonce search, routing one accepting block, and the on-chain path end to end: from the node's virtual chain to what each engine holds |
| Wrappers, Primitives, LittleEndian, Sequences | shared datatypes and facts |
| CoinSelection | the wallet's selection and change |

Each stateful part comes twice: a class whose methods follow the source statement by statement, and
functions of its state. The methods' contracts equate the two; the theorems are about the functions, and what each
function answers is also stated without it: by positions, bytes, coordinates and conditions on the inputs.

## Where the code does less than it promises

- Reverting a block does not undo the age filtering the block triggered. A reverted fork is invisible
  exactly when it triggers no filtering (`EngineTransparency.ForkInvisibleIffQuiet`), and forgotten but for
  the filtering clock exactly when no live episode is too old at any filtering it triggers
  (`ForkForgottenIffOutlived`). `FilteringIsNotUndone` is a run from a new engine in which an episode is lost;
  `EngineEpisodes.PrunedForGood` says that nothing of it is live in the engine until it is created again.
- What a lost merchant wrote stays in its tables, blocks that are reverted afterwards included: their rollbacks find
  no episode. A fork is invisible to engine and database exactly when the merchant outlives its filterings
  (`MerchantForks.ForkInvisibleToMerchant`); what the tables hold otherwise is `ForkLeaves` and `PrunedForkLeaves`,
  and `MerchantOrphans.RevertedInvoiceStays` is a run that leaves an invoice on no chain to the next merchant.
- The merchant's rollback keeps `last_update` and appends a resubscribed id at the end of the customer's
  list. It is exact if and only if neither was disturbed (`MerchantUndo.UndoSame`); otherwise it restores the
  merchant up to those two, and no later decision depends on them (`ExecuteSame`).
- All merchants of a process share one database (kdapp-merchant/src/storage.rs:9), each start-up reads what the
  others wrote, and nothing stops a second one from being created (kdapp-merchant/src/main.rs:290-299). Two that
  issue invoices of one number overwrite each other's records; a merchant created afterwards starts with indices
  that disagree and with rollbacks that do not undo (`MerchantRivals.RivalsBreakTheContract`). All merchants are
  sound throughout exactly when every creation finds the tables in agreement (`MerchantTogether.MerchantsSoundIff`),
  and a rollback undoes its command exactly under `MerchantReversal.HandedBackIff`.
- Registering a customer writes an empty row over the one there was (kdapp-merchant/src/main.rs:383), and leaves the
  tables in agreement exactly when no record names that customer (`MerchantDatabase.RegisterOkIff`).
- The board's rollback leaves members, authenticated users, comment ids, challenges and zero-bond
  leftovers behind (`BondAccounting.UndoneExactlyIff`). Its accounts are restored (`AccountsRestored`).
- The first tic-tac-toe advances the turn on rollback too, which undoes an advance only for one or two
  players (`TicTacToe.UndoExactIffTwoPlayers`).
- With six symbols at most, the first tic-tac-toe, however many play, never shows the draw it provides for
  (`TicTacToe.NeverDraw`).
- Off chain the router stamps a message with its number as score, and all episodes of an engine share one
  filtering clock: a large number in one episode prunes the others (`OffChain.NumbersPruneIff`,
  `OneLargeNumberPrunes`).
- A descriptor written with fewer moderator keys than it counts does not decode
  (`BondDescriptor.DescriptorRoundTrip`).
- A message whose payload nearly fills the 16-bit length passes the stream router but not the datagram
  router (`Routing.OneMessageAgreesIff`); one whose payload is longer does not decode at all
  (`Tlv.TlvRoundTrip`).
- A selected total above 64 bits is clamped, and the difference is lost (`CoinSelection.ConservedIffNotSaturated`).

## What is assumed of the environment

- Blocks are reverted newest first, and a block's hash is accepted again only after it was reverted. This is
  what a node that reports its virtual chain truly makes of it (`Listener.UpdatesFollow`).
  `EngineReorg.RunSound`, `EngineSlices.EpisodesDoNotInterfere`, `EngineStacks.RunTied`,
  `Instances.MerchantsAgree`, `Instances.GamesNeverDrawn` and `Instances.BoardsBalanced` need none of it.
- That the current chain determines an episode is claimed while no accepted block is more than
  EPISODE_LIFETIME past the oldest creation at stake, of that episode in `ChainDeterminesEpisode`, of any in
  `ChainDetermines`. Where the engine starts to listen does not matter, and filtering may fire at any block. Past
  the lifetime an episode may be lost to a block that is reverted later, and then the claim is false
  (`FilteringIsNotUndone`). `EngineLife.EpisodeDeterminedIff` has no such bound: it says of a live episode when
  exactly it stays live, in the run and on the current chain alone, and that the two then agree on it;
  `EngineBirth.LastLifeDeterminedIff` says so from an engine's start, counting from the episode's last creation,
  `Listener.VirtualChainDeterminesIff` for the virtual chain and `Instances.MerchantOnChainIff` for the merchant.
- The merchant theorems about forks and chains hold for runs whose creations name one merchant.
- Off-chain, each episode has one sender, whose n-th message carries number n and an authentic tag; nobody else
  can produce an authentic message. The network may drop, repeat and reorder messages, append to them, reflect
  them and inject any bytes that carry no authentic tag. Senders send no acknowledgements of their own where the
  meaning of one is at stake (`Delivery.SpeaksNoAcks`). Routers sequence by the episode id in the message header,
  the engine dispatches by the one in the payload, and nothing compares them: the end-to-end theorems of
  OffChain assume they agree, and that no sequence number of the engine's scripts, which doubles as score, exceeds
  the lifetime; `NumbersPruneIff` says what happens otherwise.
- Signature checks, keyed hashes, transaction ids and the parsing of command payloads are arbitrary
  functions.

## Model

| member | source | states |
|---|---|---|
| Listener.VirtualChainDetermines | applications/kdapps/kdapp/src/proxy.rs:128-306 | Wherever in the chain the proxy starts to listen and however often the node's virtual chain is reorganised afterwards: each engine, given every message the proxy sends it, holds (up to sameness of episodes and the filtering clock) what an engine would hold that was sent only what is due to it of the blocks of the current virtual chain, in order; as long as no block sent is more than an episode lifetime past the first score at which a block creates an episode. |
| Listener.VirtualChainDeterminesEpisode | applications/kdapps/kdapp/src/proxy.rs:128-306 | The same for all an engine holds of one episode, with the lifetime counted from that episode's own first creation and nothing asked of other episodes, their creations or their rollbacks. |
| Listener.VirtualChainDeterminesIff | applications/kdapps/kdapp/src/proxy.rs:128-306 | At any scores: from the block that creates an episode's last life on, when no life of it is live there in either engine, the episode is live in the engine the proxy feeds if and only if it outlived every filtering the blocks sent since triggered, reverted ones included; in one sent what is due of the current virtual chain, if and only if it outlived those that chain triggers; when it is live in both, it is the same in both, with the same rollbacks and memories since. |
| EngineChain.ChainDetermines | applications/kdapps/kdapp/src/engine.rs:152-212 | From any sound state, for any sequence of accepted new blocks, reverted newest blocks and reverts of blocks never sent, filtering included: the engine holds, up to sameness and the filtering clock, what it would hold had it been sent the blocks of the current chain alone; as long as no accepted block is more than a lifetime past the oldest creation. |
| EngineChain.CurrentChainDetermines | applications/kdapps/kdapp/src/engine.rs:144-212 | The same from a new engine's start, at whatever score its first block has. |
| EngineChain.TipReverted | applications/kdapps/kdapp/src/engine.rs:155-212 | Reverting the newest block of a chain gives, up to sameness, the engine that was sent the chain without it, after the filtering the block triggered; whether it triggered any or not. |
| EngineLife.EpisodeDeterminedIff | applications/kdapps/kdapp/src/engine.rs:152-212 | The exact condition, at any scores and for any reorganisations: an episode that is live, and not created again, is live in the end if and only if it outlived every filtering the accepted blocks triggered, those reverted again included; had only the current chain been sent, if and only if it outlived those that chain triggers; and when it is live in both, all the engine holds of it is the same up to sameness and the clock. |
| EngineBirth.LastLifeDeterminedIff | applications/kdapps/kdapp/src/engine.rs:143-292 | From a new engine's start, however often the chain is reorganised and the episode created and lost before: the same exact condition from the creation of its last life on, when it is live in neither engine there. |
| EngineBirth.CreatedDeterminedIff | applications/kdapps/kdapp/src/engine.rs:152-235 | The same for any two engines that remember the same blocks. |
| EngineBirth.LifeDeterminedIff | applications/kdapps/kdapp/src/engine.rs:152-212 | The same for an episode live in two engines that agree on it but for older memories and the clock. |
| EngineLife.ChainDeterminesSpared | applications/kdapps/kdapp/src/engine.rs:152-212 | At any scores and for any reorganisations: when filtering prunes nobody, neither in the run nor along the current chain, the chain determines the engine but for the clock. |
| EngineLife.LostWhenTooOld | applications/kdapps/kdapp/src/engine.rs:198-212 | Whatever is reverted and whatever rollbacks do, an episode found too old at some filtering is gone in the end unless it is created again. |
| EngineEpisodes.ChainDeterminesEpisode | applications/kdapps/kdapp/src/engine.rs:143-292 | One episode is determined by the current chain as long as no accepted block is more than a lifetime past its own oldest creation, whatever other episodes do. |
| EngineEpisodes.ForkInvisibleToEpisode | applications/kdapps/kdapp/src/engine.rs:152-212 | A reverted fork leaves all that the engine holds of one episode unchanged, up to sameness, if and only if it triggers no filtering; only this episode has to honour the contract. |
| EngineEpisodes.PrunedForGood | applications/kdapps/kdapp/src/engine.rs:198-212 | What is left where the current chain does not determine the engine: an episode that an accepted block's filtering finds too old stays absent whatever follows, reverts of that block included, until it is created again. |
| EngineEpisodes.SurvivesIff | applications/kdapps/kdapp/src/engine.rs:198-212 | An episode that is live and not created again lives after any accepted blocks if and only if it was within its lifetime at every filtering they triggered; whatever its rollbacks do. |
| EngineSlices.EpisodesDoNotInterfere | applications/kdapps/kdapp/src/engine.rs:143-292 | Whatever is accepted, pruned and reverted, in whatever order: all the engine holds of one episode (its state, its stack, its creation time, its revert-map entries, the filtering clock) is exactly what an engine would hold that was sent only that episode's transactions. |
| EngineSlices.SliceTx | applications/kdapps/kdapp/src/engine.rs:158-174 | A transaction for an episode does to that episode's slice what it does to the engine; any other leaves the slice alone and is remembered under another id. |
| EngineSlices.SliceFilter | applications/kdapps/kdapp/src/engine.rs:198-212 | Filtering treats each episode by its own creation time only. |
| EngineStacks.RunTied | applications/kdapps/kdapp/src/engine.rs:143-292 | Any relation between an episode and its pending rollbacks that the episode's own initialize, execute and rollback keep holds of every live episode in every state of every run. |
| OffChain.OffChainExecutesScript | applications/kdapps/kdapp-merchant/src/udp_router.rs:66-138 | End to end off chain, for every network behaviour and any episode type: once a script's opening message was accepted, the engine behind the router holds that script's episode, initialised under the opening message's number, with the verified commands of messages 1 to the last accepted number, checkpoints apart, executed in script order, each once, under its message's number as score, its clock reading as time, no outputs, and for its signer, and one pending rollback for each the episode accepted; whatever other episodes share router and engine. |
| OffChain.OffChainEpisode | applications/kdapps/kdapp-merchant/src/udp_router.rs:107-138 | The engine behind a router holds of each episode what it would hold if handed exactly the first messages of that episode's script, in order, each once, and nothing else. |
| OffChain.FedAlone | applications/kdapps/kdapp/src/engine.rs:152-176 | An episode behind a router shared with other episodes is what it would be behind a router of its own. |
| OffChain.AloneExecutes | applications/kdapps/kdapp/src/engine.rs:152-176 | An engine handed a creation and then one episode's events holds that episode with its commands executed in order. |
| OffChain.NumbersPruneIff | applications/kdapps/kdapp/src/engine.rs:198-212 | Off chain, where message numbers are scores and every episode is created at 0: an episode is lost if and only if some number, its own or another episode's, exceeds the lifetime when filtering is due. |
| OffChain.OneLargeNumberPrunes | applications/kdapps/kdapp/src/engine.rs:198-212 | One message, of whichever episode, prunes an episode if and only if its number exceeds the lifetime, and the filtering clock by more than the sampling interval. |
| Listener.Listen | applications/kdapps/kdapp/src/proxy.rs:97-306 | The listening loop sends each engine, for each update in turn, exactly the messages specified, and Exit at the end. |
| Listener.HandleUpdate | applications/kdapps/kdapp/src/proxy.rs:128-299 | One update: an update without added blocks is ignored; otherwise every removed hash is reverted at every engine, then each added block is sent to the engines it concerns with its score and its time in seconds. |
| Listener.SendBlock | applications/kdapps/kdapp/src/proxy.rs:146-299 | An added block reaches an engine exactly if the engine is due something of it, with exactly that. |
| Listener.BlockSent | applications/kdapps/kdapp/src/proxy.rs:277-288 | What is sent for an added block: its hash and score, its time in whole seconds, and the delivered transactions in order with their ids, payloads and outputs. |
| Listener.DueItemsByIndex | applications/kdapps/kdapp/src/proxy.rs:146-299 | What an engine is due of a chain block, told from positions; nothing if anything any engine wants is missing. |
| Listener.UpdatesFollow | applications/kdapps/kdapp/src/proxy.rs:128-299 | If the node reports its virtual chain truly, what the proxy sends an engine only ever extends the engine's chain by a new block, takes its newest block away, or reverts a block it was never sent; and the engine's chain is always the due part of the current virtual chain. |
| EngineReorg.ForkLeavesOnlyAging | applications/kdapps/kdapp/src/engine.rs:152-212 | For every engine state, every episode honouring the undo contract and every fork of blocks with distinct live hashes: accepting the fork and reverting it newest first leaves the state it started from, up to sameness of episodes, minus the episodes age filtering pruned on the way and with the filtering clock it reached. No other trace. |
| EngineTransparency.ForkInvisibleIffQuiet | applications/kdapps/kdapp/src/engine.rs:152-212 | The fork leaves no trace at all if and only if none of its blocks triggers filtering. |
| EngineTransparency.ForkForgottenIffOutlived | applications/kdapps/kdapp/src/engine.rs:152-212 | It leaves no trace but a later filtering clock if and only if no live episode is too old at any filtering the fork triggers. |
| EngineTransparency.ReorgTransparency | applications/kdapps/kdapp/src/engine.rs:152-196 | Prefix, then a quiet fork A accepted and reverted, then any further messages give the same engine (episodes, rollback stacks, creation times, revert map) as the prefix and the further messages alone. |
| EngineTransparency.SurvivorsOfFork | applications/kdapps/kdapp/src/engine.rs:198-212 | After a reverted fork exactly those episodes live that lived before and outlived every filtering the fork triggered, whatever their rollbacks do. |
| EngineTransparency.PrunedExactly | applications/kdapps/kdapp/src/engine.rs:198-212 | Along any list of accepted blocks and for any episodes, one is pruned if and only if some filtering that fires finds it past its lifetime. |
| EngineShape.ForkKeepsShape | applications/kdapps/kdapp/src/engine.rs:152-212 | For episodes of any kind, also those whose rollback is no inverse or fails: a fork accepted and reverted leaves live exactly those filtering did not prune, with the creation times, stack lengths and revert map from before. |
| EngineFrame.RunMatched | applications/kdapps/kdapp/src/engine.rs:152-212 | In every state of every run, reverts included, exactly the live episodes have creation times. |
| EngineTransparency.FilteringIsNotUndone | applications/kdapps/kdapp/src/engine.rs:152-212 | From a new engine: a block creates an episode, a later non-empty block more than a lifetime past it is accepted and reverted, and the episode is gone, though an engine sent the first block alone has it. |
| EngineReorg.BlockThenRevert | applications/kdapps/kdapp/src/engine.rs:155-192 | Accepting one block and reverting it gives the state right after that block's filtering, up to sameness. |
| EngineReorg.TxsThenRevert | applications/kdapps/kdapp/src/engine.rs:158-192 | Running the transactions of a block and reverting the recorded entries in reverse order restores the state. |
| EngineReorg.TxThenRevert | applications/kdapps/kdapp/src/engine.rs:158-174 | A transaction that records an entry is undone by reverting that entry; one that records none (unparsable, a revert sent as payload, rejected, unknown or duplicate id) changed nothing. |
| EngineReorg.RunSound | applications/kdapps/kdapp/src/engine.rs:126-140 | In every state of every run, in whatever order reverts come, ids and creation times agree and every pending rollback of every live episode would succeed, so the "severe bug" branch is never taken. |
| EngineReorg.RunRespects | applications/kdapps/kdapp/src/engine.rs:152-196 | Engines that agree up to sameness still agree after any further messages. |
| EngineReorg.AgedRevertBlock | applications/kdapps/kdapp/src/engine.rs:177-192 | Pruning episodes commutes with reverting a block: the entries of a pruned episode find nothing to undo. |
| EngineSpec.RunConcat | applications/kdapps/kdapp/src/engine.rs:152-196 | Receiving two batches of messages one after the other is receiving them in one, unless the first ends the engine. |
| EngineAccounting.RunAccounted | applications/kdapps/kdapp/src/engine.rs:126-140 | For episodes of any kind, in every state of a run that reverts the newest block first, prunings and re-creations included: each live episode's stack length plus one is the number of revert-map entries of its id since its latest creation in chain order, the revert map holds exactly the live blocks' entries, and while the newest block is reverted the empty-stack deletion fires exactly on creations. |
| EngineAccounting.NewLifeOwnsItsStack | applications/kdapps/kdapp/src/engine.rs:221-235 | For episodes of any kind, when a pruned id is created again, entries of its former life are never charged to the new one: all its actions since the new creation lie on the part of the chain accepted since. |
| EngineAccounting.RevertEntriesRevivesNothing | applications/kdapps/kdapp/src/engine.rs:273-288 | Reverting entries never brings an absent episode back: stale entries of a pruned one do nothing. |
| EngineAccounting.RevertOneAccounted | applications/kdapps/kdapp/src/engine.rs:273-288 | Undoing the newest action of the log keeps stack and log in step, and meets an empty stack exactly when that action created the episode. |
| EngineAccounting.InitiallyAccounted | applications/kdapps/kdapp/src/engine.rs:144-150 | A new engine satisfies the premises of the accounting theorem. |
| EngineAge.RunAge | applications/kdapps/kdapp/src/engine.rs:198-212 | When no accepted block is more than a lifetime behind an earlier one: after every accepted block at score d, every live episode satisfies d <= creation + 2592000 + 432000; reverts in between included. |
| EngineAge.AcceptAge | applications/kdapps/kdapp/src/engine.rs:198-212 | One accepted block establishes that bound from the previous filtering. |
| EngineAge.AcceptPrunesOnlyOld | applications/kdapps/kdapp/src/engine.rs:198-212 | No episode, of any kind, of age at most 2592000 is pruned by accepting a block, and its creation time is unchanged. |
| Engines.Engine.Start | applications/kdapps/kdapp/src/engine.rs:152-196 | The message loop over mutable maps of episode wrappers computes the specification's run of the received messages, up to the first Exit. |
| Engines.Engine.Accept | applications/kdapps/kdapp/src/engine.rs:155-176 | Filtering, the transaction loop and the new revert-map entry together are the specification's acceptance of a block. |
| OnChain.CreatedExecutes | applications/kdapps/kdapp/src/engine.rs:152-292 | From the transactions alone: from the transaction that first creates it on, and for any blocks accepted since whose filterings it outlives, an episode is the one initialised with the participants that transaction names, with every call its transactions make executed in order; each under its block's hash, score and time and its own transaction's id and outputs, for the signing key if signed and verified and for nobody if unsigned; and it keeps one rollback for each accepted call. |
| OnChain.BlocksExecute | applications/kdapps/kdapp/src/engine.rs:155-176 | The same from any live episode on. |
| OnChain.FilteredByNumbers | applications/kdapps/kdapp/src/engine.rs:198-212 | Filtering in numbers: when a score is more than 432000 past the last time, it takes exactly the episodes created more than 2592000 before that score. |
| OnChain.ExitEnds | applications/kdapps/kdapp/src/engine.rs:152-196 | Nothing after an Exit is looked at. |
| Engines.Engine.HandleTx | applications/kdapps/kdapp/src/engine.rs:158-174 | One transaction: unparsable payloads and reverts sent as payloads are skipped, anything else is handled with the block's metadata. |
| Engines.Engine.RevertAccepted | applications/kdapps/kdapp/src/engine.rs:177-192 | The reverse loop over the removed revert-map entry is the specification's revert of a block; an unknown hash changes nothing. |
| Engines.Engine.FilterOldEpisodes | applications/kdapps/kdapp/src/engine.rs:198-212 | Collecting the old ids and then removing them from both maps removes exactly the too old episodes, if filtering fires at all. |
| Engines.Engine.HandleMessage | applications/kdapps/kdapp/src/engine.rs:214-292 | Each kind of message has the specified effect and returns the entry to remember. |
| Engines.Engine.HandleNew | applications/kdapps/kdapp/src/engine.rs:221-235 | A new id gets a fresh episode and its creation time; an existing one is left alone. |
| Engines.Engine.HandleSigned | applications/kdapps/kdapp/src/engine.rs:237-253 | A signed command is executed under its key if the signature verifies, and remembered if accepted. |
| Engines.Engine.HandleUnsigned | applications/kdapps/kdapp/src/engine.rs:255-271 | An unsigned command is executed without authorization and remembered if accepted. |
| Engines.Engine.HandleRevert | applications/kdapps/kdapp/src/engine.rs:273-288 | One rollback is popped, or the episode and its creation time are removed when there is none. |
| Engines.EpisodeWrapper.ExecuteSigned | applications/kdapps/kdapp/src/engine.rs:105-118 | The signature is checked first; the rollback object is pushed exactly when the episode accepts. |
| Engines.EpisodeWrapper.ExecuteUnsigned | applications/kdapps/kdapp/src/engine.rs:120-124 | The rollback object is pushed exactly when the episode accepts. |
| Engines.EpisodeWrapper.Rollback | applications/kdapps/kdapp/src/engine.rs:126-140 | Pops the newest rollback and applies it; an empty stack asks for deletion and changes nothing. |
| Episodes.RunThenUndo | applications/kdapps/kdapp/src/episode.rs:53-64 | For every episode honouring the contract: after any run of commands, accepted or not, popping all rollbacks reports success each time and reaches a state the same as the start. |
| Episodes.UndoablePush | applications/kdapps/kdapp/src/episode.rs:53-64 | A state whose whole stack can be popped keeps that property when a command is accepted and its rollback pushed. |
| Episodes.RollbackAllRespects | applications/kdapps/kdapp/src/episode.rs:63-64 | Popping a stack from two states that count as the same succeeds in both and ends in the same. |
| Instances.GameReorg | applications/kdapps/tictactoe/src/game.rs:118-193 | A game created for one or two players, in an engine where anybody may play games of any size: after any messages, all that concerns it is exactly as it was after a fork is accepted and reverted if and only if the fork triggers no filtering. |
| Instances.AgentReorg | applications/kdapps/kdapp-mcp-server/src/state.rs:66-160 | The same for the second game, whatever the participant lists. |
| Instances.MerchantReorg | applications/kdapps/kdapp-merchant/src/episode.rs:104-403 | One merchant over its database: after any messages, a fork accepted and reverted leaves engine and tables as they were, up to lastUpdate, subscription order and the filtering clock, if and only if the live merchant is not too old at any filtering the fork triggers. |
| Instances.MerchantsAgree | applications/kdapps/kdapp-merchant/src/episode.rs:104-403 | One merchant over its database, from any tables in agreement: in every state of every run, prunings and re-creations from the tables its former life left included, its indices agree with its invoices, all its pending rollbacks succeed, and loading the tables would rebuild it. |
| Instances.GamesNeverDrawn | applications/kdapps/tictactoe/src/game.rs:196-208 | In every state of an engine of games, for any number of players, no game that has players polls as a draw and all pending rollbacks of every game succeed. |
| Instances.GamesOnChain | applications/kdapps/tictactoe/src/game.rs:118-193 | Games behind the proxy: after any reorganisations, all that concerns a game created for one or two players equals, clock apart, what an engine holds of it that was sent what it is due of the current virtual chain alone, as long as no block sent is more than a lifetime past that game's creation. |
| Instances.MerchantsOnChain | applications/kdapps/kdapp-merchant/src/episode.rs:104-403 | A merchant behind the proxy: engine and tables are, up to lastUpdate, subscription order and clock, those of an engine that was sent what it is due of the current virtual chain alone, as long as creations name one merchant and no block sent is more than a lifetime past its first creation. |
| Instances.MerchantOnChainIff | applications/kdapps/kdapp-merchant/src/episode.rs:104-403 | The same when the blocks that create the merchant come within a lifetime and those after them at any scores: exactly when the merchant is live in the engine, and in one sent what is due of the virtual chain alone, and that engine and tables then agree. |
| Instances.BoardsBalanced | applications/kdapps/comment-board/src/episode/board_with_contract.rs:55-221 | In every state of an engine of boards, whatever it accepts and reverts, the books of every live board balance with its pending rollbacks, although rollback is no inverse. |
| TicTacToe.UndoExact | applications/kdapps/tictactoe/src/game.rs:134-192 | Rollback of an accepted move restores the game exactly, the evicted symbol with its owner included although only its cell was stored, and reports success. |
| TicTacToe.UndoExactIffTwoPlayers | applications/kdapps/tictactoe/src/game.rs:183 | Rollback is an exact inverse if and only if there are at most two players. |
| TicTacToe.PlaceInv | applications/kdapps/tictactoe/src/game.rs:156-172 | A legal move keeps the invariant: occupied cells are exactly the history's cells, without repetition, and the owner of each entry is fixed by the turn and its age. |
| TicTacToe.OldestIsMovers | applications/kdapps/tictactoe/src/game.rs:187-188 | With a full window the oldest symbol belongs to the player to move. |
| TicTacToe.OwnerParity | applications/kdapps/tictactoe/src/game.rs:172 | Whose symbol was placed k moves ago depends only on the parity of k. |
| TicTacToe.GameUndoes | applications/kdapps/tictactoe/src/game.rs:118-193 | Games with one or two players honour the undo contract with equality as sameness. |
| TicTacToe.SymbolsBounded | applications/kdapps/tictactoe/src/game.rs:158-164 | In every reachable game at most six cells are occupied, and at most three by each of two distinct players. |
| TicTacToe.NeverDraw | applications/kdapps/tictactoe/src/game.rs:196-208 | No game whose cells are those of its history polls as a draw, however many play. |
| TicTacToeGrid.GamesKeepPending | applications/kdapps/tictactoe/src/game.rs:118-193 | For any number of players, every operation keeps occupied cells equal to the history's cells, without repetition and at most six, through all pending rollbacks, each of which succeeds. |
| TicTacToe.FirstWinnerOwnsALine | applications/kdapps/tictactoe/src/game.rs:210-232 | The line scan names a player who owns a whole line, and names nobody only when no line is owned. |
| TicTacToeRules.WinnerOwnsALine | applications/kdapps/tictactoe/src/game.rs:196-232 | In coordinates: a winner is shown if and only if somebody owns a row, a column or a diagonal; it is somebody who does, and that player exactly if only one does. |
| TicTacToeRules.WithoutWinner | applications/kdapps/tictactoe/src/game.rs:196-236 | Without a winner the game is drawn exactly if all nine cells are taken, and else shows the player to move. |
| TicTacToeRules.MoveIff | applications/kdapps/tictactoe/src/game.rs:134-155 | A move is accepted if and only if it comes from the player to move and names a free cell inside the board; which error otherwise. |
| TicTacToeRules.MoveWrites | applications/kdapps/tictactoe/src/game.rs:156-175 | What a move changes, cell by cell: the mover's symbol, the oldest of six gone, window, turn and time; and its rollback object. |
| TicTacToeRules.RollbackIff | applications/kdapps/tictactoe/src/game.rs:177-192 | A rollback fails, and changes nothing, exactly if the move's cell is empty or nobody plays. |
| TicTacToeRules.AgentMoveIff | applications/kdapps/kdapp-mcp-server/src/state.rs:75-108 | When the second game accepts a move, and which error it gives otherwise. |
| TicTacToeRules.AgentMoveWrites | applications/kdapps/kdapp-mcp-server/src/state.rs:109-131 | What a move of the second game changes, cell by cell, and its rollback object. |
| TicTacToeGames.TicTacToeGame.ExecuteCommand | applications/kdapps/tictactoe/src/game.rs:134-175 | The in-place update of board, window, turn and timestamp is the specified move; a refused one changes nothing. |
| TicTacToeGames.TicTacToeGame.RollbackCommand | applications/kdapps/tictactoe/src/game.rs:177-192 | The in-place rollback is the specified one. |
| TicTacToeGames.TicTacToeGame.CheckWinner | applications/kdapps/tictactoe/src/game.rs:210-232 | The scan over eight lines finds the owner of the first uniform line. |
| TicTacToeGames.TicTacToeGame.IsDraw | applications/kdapps/tictactoe/src/game.rs:234-236 | True exactly when all nine cells are occupied. |
| TicTacToeGames.TicTacToeGame.PollStatus | applications/kdapps/tictactoe/src/game.rs:196-208 | Winner before draw before the player to move. |
| AgentTicTacToe.Bisimilar | applications/kdapps/kdapp-mcp-server/src/state.rs:75-159 | For two participants, related games of the two implementations accept or refuse the same authorised moves, evict the same cell, and stay related all the way down their rollback stacks. |
| AgentTicTacToe.BisimilarRuns | applications/kdapps/kdapp-mcp-server/src/state.rs:71-159 | From freshly initialised games of two participants, any sequence of moves and rollbacks gets the same decision from both implementations at each step and ends in related games. |
| AgentTicTacToe.SameDecision | applications/kdapps/kdapp-mcp-server/src/state.rs:82-108 | A move naming its player is accepted by the second game exactly when that player is to move and the first accepts the same authorised move. |
| AgentTicTacToe.InitiallyInStep | applications/kdapps/kdapp-mcp-server/src/state.rs:71-73 | Freshly initialised games with two participants are related. |
| AgentTicTacToe.AgentUndone | applications/kdapps/kdapp-mcp-server/src/state.rs:109-159 | An accepted move keeps board and window in step and its rollback restores the game exactly. |
| AgentTicTacToe.AgentUndoes | applications/kdapps/kdapp-mcp-server/src/state.rs:66-160 | Because the evicted symbol is stored, the undo contract holds for every participant list. |
| AgentTicTacToeGames.AgentTicTacToeGame.ExecuteCommand | applications/kdapps/kdapp-mcp-server/src/state.rs:75-131 | The in-place update is the specified move. |
| AgentTicTacToeGames.AgentTicTacToeGame.RollbackCommand | applications/kdapps/kdapp-mcp-server/src/state.rs:133-159 | The in-place rollback is the specified one. |
| MerchantUndo.MerchantUndoes | applications/kdapps/kdapp-merchant/src/episode.rs:120-402 | The merchant honours the undo contract, up to lastUpdate and the order of subscription lists, for any tables in agreement at start-up. |
| MerchantUndo.UndoSame | applications/kdapps/kdapp-merchant/src/episode.rs:323-402 | Rollback of an accepted command succeeds and gives the same merchant; it gives exactly the old one if and only if the command kept lastUpdate (invoice payment, acknowledgement, cancellation) or removed the last listed subscription (subscription cancellation). |
| MerchantUndo.ExecuteSame | applications/kdapps/kdapp-merchant/src/episode.rs:120-321 | Merchants that count as the same take the same decision on every command, with the same rollback object, and stay the same. |
| MerchantUndo.RollbackSame | applications/kdapps/kdapp-merchant/src/episode.rs:323-402 | Merchants that count as the same stay the same under every rollback, with the same verdict. |
| MerchantUndo.SameInv | applications/kdapps/kdapp-merchant/src/episode.rs:96-102 | Agreement of the indices does not depend on lastUpdate or on the order of subscription lists. |
| MerchantInvariants.ExecuteInv | applications/kdapps/kdapp-merchant/src/episode.rs:120-321 | Every command, accepted or not, keeps: used carriers are exactly the invoices' carriers, no two invoices share one, payer and carrier are set exactly for Paid and Acked, and a customer lists an invoice or subscription id exactly once if that record names the customer and not at all otherwise. |
| MerchantInvariants.LoadInv | applications/kdapps/kdapp-merchant/src/episode.rs:109-118 | Start-up from tables in agreement gives a merchant in agreement, whatever its keys. |
| MerchantInvariants.RestartRebuilds | applications/kdapps/kdapp-merchant/src/episode.rs:109-118 | Loading the tables of a merchant in agreement with its keys gives that merchant, recomputed carriers included. |
| MerchantRestart.RestartEquivalence | applications/kdapps/kdapp-merchant/src/episode.rs:109-118 | After any interleaving of commands and rollbacks, each writing its records to the tables, a restart from those tables rebuilds the merchant, used carriers included. |
| ReceiptEpisodes.WorkAndRestart | applications/kdapps/kdapp-merchant/src/episode.rs:104-403 | The same on the class: an episode is constructed over a storage, works through any commands and rollbacks, and a second one constructed over what it left has the same fields. |
| MerchantDatabase.CommandMirrored | applications/kdapps/kdapp-merchant/src/episode.rs:120-321 | When nobody else writes, the records a command writes leave the tables equal to the merchant's fields: no updated entry is forgotten. |
| MerchantDatabase.RollbackMirrored | applications/kdapps/kdapp-merchant/src/episode.rs:323-402 | The same for the records a rollback writes and deletes. |
| MerchantEngine.OneMerchantAgrees | applications/kdapps/kdapp-merchant/src/episode.rs:104-403 | For an engine whose creations name one id, with the database threaded through creation, execution and rollback: indices, pending rollbacks and tables agree in every state of every run, in whatever order blocks are reverted. |
| MerchantReorgs.ChainDeterminesMerchant | applications/kdapps/kdapp-merchant/src/episode.rs:104-403 | As long as creations name one merchant and no accepted block is more than a lifetime past the oldest creation: engine and database after any reorganisations are, up to sameness and clock, those of the current chain alone, though a merchant created again loads what its former life left in the tables. |
| MerchantLife.MerchantDeterminedIff | applications/kdapps/kdapp-merchant/src/episode.rs:104-403 | At any scores, for a live merchant while nothing is created: it is live in the end if and only if it outlived every filtering the accepted blocks triggered; had the current chain alone been sent, if and only if it outlived those that chain triggers; when it is live in both, engine and tables agree. |
| MerchantLife.FoundedDeterminedIff | applications/kdapps/kdapp-merchant/src/episode.rs:104-403 | The same for whole runs from a process's start, of which only the part that creates has to keep within a lifetime. |
| MerchantForks.ForkInvisibleToMerchant | applications/kdapps/kdapp-merchant/src/episode.rs:104-403 | A fork that creates no other merchant, accepted and reverted, leaves a live merchant and its database as they were, up to sameness and clock, if and only if the merchant is not too old at any filtering the fork triggers. |
| MerchantForks.ForkLeaves | applications/kdapps/kdapp/src/engine.rs:152-292 | What such a fork leaves in every case: the shop as it was if a live merchant outlives it; otherwise no merchant, the revert map as it was, and the tables with which the last life began if that life is there when the fork ends, and as that life left them if it is not. |
| MerchantForks.PrunedForkLeaves | applications/kdapps/kdapp/src/engine.rs:273-288 | When no merchant is live as the fork ends, reverting it writes nothing: the tables keep what its blocks wrote. |
| MerchantForks.ForkBeforeCreation | applications/kdapps/kdapp/src/engine.rs:152-292 | Where no merchant is live before the fork, the engine is as it was but for the clock, and the database if and only if the tables left are the ones there were. |
| MerchantOrphans.RevertedInvoiceStays | applications/kdapps/kdapp-merchant/src/episode.rs:109-118 | A run in which an invoice outlives its chain: a block issues it, a later block finds the merchant too old, both are reverted; engine memory and chain are those of the creating block alone, the merchant is gone, the invoice is in the tables, and the next merchant created loads it. |
| MerchantReorgs.ForkInvisibleInWindow | applications/kdapps/kdapp-merchant/src/episode.rs:104-403 | A fork none of whose blocks is more than a lifetime past the oldest creation leaves engine and database as they were, whether or not the merchant is live. |
| MerchantTogether.MerchantsSoundIff | applications/kdapps/kdapp-merchant/src/episode.rs:104-403 | For any number of merchants over one database and any run: after every transaction and every message the indices of every live merchant agree and all its pending rollbacks succeed, if and only if every creation that takes effect finds the tables in agreement. |
| MerchantTogether.OneMerchantLoads | applications/kdapps/kdapp-merchant/src/episode.rs:109-118 | Runs whose creations name one merchant meet that condition. |
| MerchantTogether.SoundMerchant | applications/kdapps/kdapp-merchant/src/episode.rs:323-402 | What the condition gives each live merchant: agreeing indices, and a stack that pops with success to the end. |
| MerchantReversal.HandedBackIff | applications/kdapps/kdapp-merchant/src/episode.rs:120-402 | Whatever the indices say: the rollback of an accepted command hands the merchant back, up to lastUpdate and list order, if and only if, for a payment, the invoice has no payer and no carrier and the payer does not list it; for a new subscription, the customer does not list it; for a cancelled one, it is stored under its own id and its customer, if known, lists it once; always for the others. |
| MerchantRivals.RivalsBreakTheContract | applications/kdapps/kdapp-merchant/src/storage.rs:9-11 | Merchants of one process share one database: a run of one block, from tables in agreement, with payments whose outputs are good, after which a third merchant's indices disagree and rolling back a payment it accepts does not restore it. |
| MerchantDatabase.RegisterOkIff | applications/kdapps/kdapp-merchant/src/main.rs:375-383 | Registering a customer, which writes an empty row over the customer's row, keeps tables in agreement if and only if no invoice and no subscription names that customer. |
| MerchantDatabase.TwoMerchantsDisagree | applications/kdapps/kdapp-merchant/src/episode.rs:109-118 | The tables two merchants leave after both issued an invoice of one number, and a customer paid one of them with good outputs, load as a merchant in disagreement. |
| MerchantRestart.RevertedMerchantLeavesNoTrace | applications/kdapps/kdapp-merchant/src/episode.rs:109-118 | When a merchant is undone down to its creation, the tables it leaves load, for any keys, as the same merchant as the tables it started from, up to lastUpdate and list order. |
| ReceiptEpisodes.ReceiptEpisode.constructor | applications/kdapps/kdapp-merchant/src/episode.rs:109-118 | Start-up reads the three tables as they stand and recomputes the used carriers. |
| ReceiptEpisodes.ReceiptEpisode.ExecuteCommand | applications/kdapps/kdapp-merchant/src/episode.rs:120-321 | The in-place updates are the specified ones, and exactly the specified records are written to the tables, whatever else they hold. |
| ReceiptEpisodes.ReceiptEpisode.ExecuteMarkPaid | applications/kdapps/kdapp-merchant/src/episode.rs:156-230 | Payment: same order of refusals, same updates of invoice, carriers and customer, same two records written. |
| ReceiptEpisodes.ReceiptEpisode.CheckOutputs | applications/kdapps/kdapp-merchant/src/episode.rs:181-216 | The flag loop with its break accepts exactly if some output is worth the amount and, if any such output's script is known, one of them pushes a merchant key's 33 bytes and checks a signature; InvalidAmount exactly if no output is worth it, else InvalidScript. |
| MerchantDecisions.MarkPaidIff | applications/kdapps/kdapp-merchant/src/episode.rs:156-216 | A payment is accepted if and only if its payer signed it, its carrier is unused, the invoice is open, the payer is registered, and known outputs pay the merchant. |
| MerchantDecisions.MarkPaidWrites | applications/kdapps/kdapp-merchant/src/episode.rs:217-230 | What an accepted payment writes: payer, carrier, time and status of the invoice, the used carrier, and the invoice at the end of the payer's list unless listed; nothing else. |
| MerchantDecisions.MarkPaidRefusals | applications/kdapps/kdapp-merchant/src/episode.rs:156-216 | Which of eight errors a refused payment gets, by the first condition that applies. |
| MerchantDecisions.CreateInvoiceIff | applications/kdapps/kdapp-merchant/src/episode.rs:127-155 | An invoice is issued if and only if a merchant key signs, the number is new and the amount positive; which error otherwise; and the open invoice written. |
| MerchantDecisions.AckReceiptIff | applications/kdapps/kdapp-merchant/src/episode.rs:231-249 | A receipt is acknowledged if and only if the invoice is paid; which error otherwise; and what is written. |
| MerchantDecisions.CancelInvoiceIff | applications/kdapps/kdapp-merchant/src/episode.rs:250-265 | An invoice is cancelled if and only if it is open; which error otherwise; and what is written. |
| MerchantDecisions.CreateSubscriptionIff | applications/kdapps/kdapp-merchant/src/episode.rs:266-297 | A subscription is created if and only if a merchant key signs, the number is new, amount and interval are positive and the customer is registered; which error otherwise. |
| MerchantDecisions.CreateSubscriptionWrites | applications/kdapps/kdapp-merchant/src/episode.rs:266-297 | It is written to run first one interval after acceptance, and listed last with its customer. |
| MerchantDecisions.ProcessSubscriptionIff | applications/kdapps/kdapp-merchant/src/episode.rs:298-307 | A known subscription is processed, and next runs one interval after acceptance. |
| MerchantDecisions.CancelSubscriptionIff | applications/kdapps/kdapp-merchant/src/episode.rs:308-321 | A known subscription is cancelled: gone, and taken out of its customer's list in place; nothing else changes. |
| MerchantDecisions.RollbackIff | applications/kdapps/kdapp-merchant/src/episode.rs:323-402 | A rollback succeeds if and only if the record it names is there, a restored subscription always; one that fails changes nothing. |
| ReceiptEpisodes.ReceiptEpisode.RollbackCommand | applications/kdapps/kdapp-merchant/src/episode.rs:323-402 | The in-place rollbacks are the specified ones, and exactly the specified records are written and deleted, whatever else the tables hold. |
| BondAccounting.BondsConserved | applications/kdapps/comment-board/src/episode/board_with_contract.rs:183-248 | Along every run of commands and last-in-first-out rollbacks: the locked value is the pending join bonds plus the live comments' bonds, the locked identifiers sum to the latter (zero leftovers included), and the comment count is the number of comments. |
| BondAccounting.NeverSaturates | applications/kdapps/comment-board/src/episode/board_with_contract.rs:204-213 | Each such rollback keeps the books, and its saturating subtraction subtracts the whole bond. |
| BondAccounting.ExecuteBalanced | applications/kdapps/comment-board/src/episode/board_with_contract.rs:129-181 | Every command, accepted or refused, keeps the books. |
| BondAccounting.AccountsRestored | applications/kdapps/comment-board/src/episode/board_with_contract.rs:183-220 | Rolling back an accepted command restores the comments, their count, the locked value and the sum of the locked identifiers. |
| BondAccounting.UndoneExactlyIff | applications/kdapps/comment-board/src/episode/board_with_contract.rs:183-220 | The whole board is restored if and only if the command was a challenge equal to the current one: members, authenticated users, comment ids and challenges stay. |
| BondAccounting.InitiallyBalanced | applications/kdapps/comment-board/src/episode/board_with_contract.rs:60-127 | A new board's books balance. |
| ContractCommentBoards.ContractCommentBoard.ExecuteCommand | applications/kdapps/comment-board/src/episode/board_with_contract.rs:129-181 | The command methods' in-place updates are the specified ones; a refused command changes nothing. |
| ContractCommentBoards.ContractCommentBoard.ExecuteJoinRoom | applications/kdapps/comment-board/src/episode/board_with_contract.rs:225-248 | A join adds the member and its bond to the locked value, and locks no identifier. |
| ContractCommentBoards.ContractCommentBoard.ExecuteSubmitComment | applications/kdapps/comment-board/src/episode/board_with_contract.rs:307-420 | A comment passes the bond checks in the source's order, then locks its bond and is appended. |
| BoardDecisions.SubmitCommentIff | applications/kdapps/comment-board/src/episode/board_with_contract.rs:307-375 | A comment is accepted if and only if it is signed, in time and not blank, and a positive bond is allowed, large enough, and, when the outputs are known, exactly the value of the output named, whose decodable script is the declared one, or covered by some output if none is named. |
| BoardDecisions.SubmitCommentRefusals | applications/kdapps/comment-board/src/episode/board_with_contract.rs:307-375 | Which error a refused comment gets, by the first condition that applies. |
| BoardDecisions.SubmitCommentWrites | applications/kdapps/comment-board/src/episode/board_with_contract.rs:376-420 | What an accepted comment changes: comment, count, locked value, lock and next id; nothing else. |
| BoardDecisions.LocksAreCovered | applications/kdapps/comment-board/src/episode/board_with_contract.rs:307-420 | In every state of every run of commands and rollbacks from a new board: every positive lock was made by a comment that declared that bond in that transaction, and if its outputs were known one of them is worth it. |
| BoardDecisions.JoinRoomIff | applications/kdapps/comment-board/src/episode/board_with_contract.rs:129-248 | Who may join, which error others get, and what joining changes. |
| BoardDecisions.RequestChallengeIff | applications/kdapps/comment-board/src/episode/board_with_contract.rs:129-273 | Who may ask for a challenge, which error others get, and that it is "auth_" and the transaction id in hexadecimal. |
| BoardDecisions.SubmitResponseIff | applications/kdapps/comment-board/src/episode/board_with_contract.rs:274-306 | A response is accepted if and only if it is signed, in time, answers the current challenge and carries a non-empty signature; which error otherwise; and what it changes. |
| BoardDecisions.NewBoard | applications/kdapps/comment-board/src/episode/board_with_contract.rs:60-127 | A new board is empty and expires 7776000 after its creation, but not before 2000000000. |
| ContractCommentBoards.ContractCommentBoard.RollbackCommand | applications/kdapps/comment-board/src/episode/board_with_contract.rs:183-220 | The in-place rollback is the specified one. |
| BondDescriptor.DescriptorRoundTrip | applications/kdapps/comment-board/src/wallet/kaspa_scripts.rs:186-320 | For every descriptor, decoding its encoding gives it back exactly when at least as many moderator keys were supplied as it counts, and nothing otherwise. |
| BondDescriptor.EncodedBytes | applications/kdapps/comment-board/src/wallet/kaspa_scripts.rs:186-227 | The bytes of an encoding of each kind: kind, time in eight bytes, lowest first, counts, the moderator keys supplied up to the count, and the user's key. |
| BondDescriptor.DecodedIff | applications/kdapps/comment-board/src/wallet/kaspa_scripts.rs:243-320 | Exactly which bytes decode to which descriptor. |
| BondDescriptor.Encode | applications/kdapps/comment-board/src/wallet/kaspa_scripts.rs:186-227 | The pushes write the specified bytes. |
| BondDescriptor.Decode | applications/kdapps/comment-board/src/wallet/kaspa_scripts.rs:243-320 | The advancing cursor accepts and returns what the specified layout says; trailing bytes are ignored. |
| Delivery.ExactlyOnceInOrder | applications/kdapps/kdapp-merchant/src/udp_router.rs:66-138 | For every run of a network that drops, duplicates and reorders, appends bytes, reflects messages to either side and injects any bytes without an authentic tag: per episode the router has accepted messages 0 to its last sequence number in order, each once and no other; the forwarded log is exactly the accepted messages of type 0, 1 or 3, in order of acceptance, each as its number and its own payload; and, if no sender sends acknowledgements of its own, a message whose sender saw it acknowledged was accepted exactly once. |
| Delivery.ForgeryIgnored | applications/kdapps/kdapp-merchant/src/udp_router.rs:47-66 | Bytes without an authentic tag change nothing: no table entry, no event, no reply. |
| Delivery.ReflectionIgnored | applications/kdapps/kdapp-merchant/src/udp_router.rs:47-105 | An acknowledgement sent back to the router, with anything appended, changes nothing. |
| Delivery.RoundConfirmsIff | applications/kdapps/kdapp-merchant/src/client_sender.rs:10-36 | One sending that arrives and whose reply is read confirms a message if and only if the message fits the receive buffer, is the next of its episode and of a kind that may be, or is the one accepted last, and the sender waits for the kind of acknowledgement its kind gets. |
| Delivery.AfterInv | applications/kdapps/kdapp-merchant/src/udp_router.rs:66-138 | The protocol invariant holds along every run: order of acceptance, forwarded log, origin of every datagram and acknowledgement, and confirmations only of accepted messages. |
| Delivery.AcceptedIff | applications/kdapps/kdapp-merchant/src/udp_router.rs:66-105 | A delivered message is accepted if and only if it is the next of its episode, opens the episode exactly when it is the first, and fits the receive buffer. |
| Delivery.AckMeansAccepted | applications/kdapps/kdapp-merchant/src/client_sender.rs:20-28 | Bytes that reach a sender, forged or reflected ones included, and that it takes as acknowledging a message mean that the router accepted that message, if no sender sends acknowledgements of its own. |
| Routing.TcpRefinesUdp | applications/kdapps/kdapp-merchant/src/tcp_router.rs:48-139 | Reading any concatenation of messages that fit the datagram buffer, with a last one cut anywhere, gives the same replies, events and sequence table as receiving them one datagram at a time. |
| Routing.OneMessageAgreesIff | applications/kdapps/kdapp-merchant/src/udp_router.rs:38-51 | On one message the two routers agree if and only if it fits the datagram buffer, is not of the current version or a known type, fails its tag, or is ignored at its place in the sequence. |
| Routing.RetransmissionIsIdempotent | applications/kdapps/kdapp-merchant/src/udp_router.rs:75-90 | Whatever got a reply, received again, gets the same bytes, changes no state and forwards nothing. |
| Routing.FramesOfEncodings | applications/kdapps/kdapp-merchant/src/tcp_router.rs:49-60 | The frame reader cuts a stream of encodings followed by an incomplete tail into exactly those encodings. |
| Routing.CutShort | applications/kdapps/kdapp-merchant/src/tcp_router.rs:51-58 | No proper prefix of an encoding is a frame. |
| Routing.ReceiveMeans | applications/kdapps/kdapp-merchant/src/udp_router.rs:47-138 | From the bytes alone: an authentic message is accepted if it opens an unknown episode with type 0 and number 0, or continues one with type 1, 3 or 5 and the next number; it gets a signed acknowledgement of type 4 for a close and 2 otherwise, which is kept, and all but type 5 is forwarded under its number with its own payload; a repetition of the last number gets the kept bytes; anything else gets nothing. |
| Routers.Router.Handle | applications/kdapps/kdapp-merchant/src/udp_router.rs:47-138 | Either loop's body has the specified effect on the table, the reply and the forwarded event. |
| Routers.Router.RunUdp | applications/kdapps/kdapp-merchant/src/udp_router.rs:39-139 | The datagram loop does so for each datagram in turn, each cut to the receive buffer. |
| Routers.Router.HandleStream | applications/kdapps/kdapp-merchant/src/tcp_router.rs:48-139 | The frame-reading loop does so for each complete frame of the stream. |
| Routers.SendWithRetry | applications/kdapps/kdapp-merchant/src/client_sender.rs:10-36 | Every attempt sends the same signed bytes and waits twice as long as the one before; the loop ends at the first acknowledgement or after three attempts, and reports which. |
| Routers.ReadAck | applications/kdapps/kdapp-merchant/src/client_sender.rs:20-28 | Received bytes count as an acknowledgement exactly if they decode to an authentic one of the expected kind for this episode and number. |
| Routers.AcknowledgesMeans | applications/kdapps/kdapp-merchant/src/client_sender.rs:18-28 | Of what is received 1024 bytes are read; they acknowledge exactly if they begin with the encoding of an authentic message of type 4 where a close is expected and 2 otherwise, for the message's episode and number. |
| Tlv.TlvRoundTrip | applications/kdapps/kdapp-merchant/src/tlv.rs:46-107 | Decoding an encoding gives the message back if and only if its version is the current one, its type is known and its payload length fits 16 bits. |
| Tlv.Layout | applications/kdapps/kdapp-merchant/src/tlv.rs:46-107 | Where each field of an encoding lies, whatever bytes follow it. |
| Tlv.EncodedBytes | applications/kdapps/kdapp-merchant/src/tlv.rs:46-81 | The bytes of an encoding: version, type, episode and number in eight bytes each, lowest first, state hash, the low 16 bits of the payload length, payload and tag. |
| Tlv.TagCovers | applications/kdapps/kdapp-merchant/src/tlv.rs:61-75 | The tag, as signed and as checked, is over all bytes before it. |
| Tlv.DecodedIff | applications/kdapps/kdapp-merchant/src/tlv.rs:83-107 | Bytes decode to a message if and only if it is of version 1, a known type and less than 65536 bytes of payload, and its encoding begins them. |
| Tlv.TypeNumbers | applications/kdapps/kdapp-merchant/src/tlv.rs:10-18 | The numbers of the six message types. |
| Tlv.Encode | applications/kdapps/kdapp-merchant/src/tlv.rs:77-81 | The appends produce the specified encoding. |
| Tlv.Decode | applications/kdapps/kdapp-merchant/src/tlv.rs:83-107 | The slicing accepts and returns what the specified layout says. |
| Tlv.FromU8 | applications/kdapps/kdapp-merchant/src/tlv.rs:20-32 | A type byte is known exactly if it is the byte of a message type, which it then names. |
| Proxy.RouteBlock | applications/kdapps/kdapp/src/proxy.rs:147-298 | Per accepting block, told from positions: if every accepted id but the first that any engine's pattern wants is among the merged transactions of readable blocks, each block's first excepted, then each engine is sent exactly the ids accepted, not first, that have its pattern's bits and whose earliest merged transaction names its prefix; each with that transaction's payload from the ninth byte on and its outputs, in order of first acceptance; otherwise nobody is sent anything; no empty message is sent. |
| Proxy.Dispatch | applications/kdapps/kdapp/src/proxy.rs:248-298 | Consuming map entries, visiting engines in any order and leaving early, the loop gives every engine its whole share and sends nothing else. |
| Proxy.Serve | applications/kdapps/kdapp/src/proxy.rs:252-276 | The filter of one engine computes the pass over the required transactions and consumes what it takes. |
| Proxy.PassDelivers | applications/kdapps/kdapp/src/proxy.rs:252-276 | A pass that starts after others consumed only entries that are not this engine's delivers the engine's whole share and consumes exactly what it takes. |
| Proxy.TakenByOne | applications/kdapps/kdapp/src/proxy.rs:262-264 | Engines with different prefixes never take the same transaction. |
| Proxy.Collect | applications/kdapps/kdapp/src/proxy.rs:160-245 | The nested loops with countdown and early exit find for each required id the payload and outputs of the earliest merged transaction that has it, each readable block's first transaction skipped, and nothing if there is none; and the countdown ends at the number still missing. |
| Proxy.ShareIsDue | applications/kdapps/kdapp/src/proxy.rs:151-157 | Filtering the accepted ids to what any engine wants loses nothing of what one engine is due. |
| Proxy.MissingIffNotFound | applications/kdapps/kdapp/src/proxy.rs:240-246 | Nothing is missing exactly when every wanted transaction is among the merged ones. |
| Proxy.InDue | applications/kdapps/kdapp/src/proxy.rs:252-276 | A transaction is due to an engine if and only if it was accepted, was found, its id matches the engine's pattern and its header has the engine's prefix. |
| Proxy.DueOnce | applications/kdapps/kdapp/src/proxy.rs:252-276 | However often an id is accepted, it is delivered to an engine once. |
| Proxy.PackedArrives | applications/kdapps/kdapp/src/proxy.rs:252-276 | A payload packed for a prefix, its nonce rewritten any number of times until the id matches, reaches the engine of that prefix as the bytes that were packed, and no other engine. |
| Payloads.PayloadRoundTrip | applications/kdapps/kdapp/src/generator.rs:37-59 | For every inner payload, prefix and nonces written: the header names that prefix and no other, and stripping gives the inner bytes. |
| Payloads.SearchNonce | applications/kdapps/kdapp/src/generator.rs:89-98 | The search returns the packed payload under the first nonce whose id matches the pattern, or fails only if none of the 2^32 does. |
| Payloads.SetNonce | applications/kdapps/kdapp/src/generator.rs:50-52 | Overwrites the four nonce bytes in place and nothing else. |
| Payloads.CheckPattern | applications/kdapps/kdapp/src/generator.rs:24-33 | The loop with its early return decides whether the id matches the pattern. |
| Payloads.MatchesEveryBit | applications/kdapps/kdapp/src/generator.rs:24-33 | Matching means that every listed bit, counted from the lowest of the first byte on, has its listed value. |
| Payloads.CandidateBytes | applications/kdapps/kdapp/src/generator.rs:37-52 | The bytes of a packed payload under a nonce: prefix and nonce in four bytes each, lowest first, then the inner bytes. |
| Payloads.NonceBytes | applications/kdapps/kdapp/src/generator.rs:50-52 | Setting the nonce writes its four bytes, lowest first, at the fifth byte and changes nothing else. |
| Payloads.HeaderNames | applications/kdapps/kdapp/src/generator.rs:43-48 | A header names a prefix exactly if there are eight bytes and the first four are the prefix, lowest first. |
| Payloads.OnePrefix | applications/kdapps/kdapp/src/generator.rs:43-48 | No payload carries two prefixes. |
| CoinSelection.SpendOnBond | applications/kdapps/comment-board/src/wallet/utxo_manager.rs:300-336 | Selection fails if and only if all coins together do not cover bond and fee; otherwise the inputs are the shortest ascending prefix that does, and the outputs are the bond, followed, unless it is zero, by the change: the inputs' total, at most 2^64 - 1, less bond and 5000. |
| CoinSelection.Select | applications/kdapps/comment-board/src/wallet/utxo_manager.rs:413-430 | The loop with saturating sum and break takes the shortest prefix whose true total covers what is required, or everything. |
| CoinSelection.ConservedIffNotSaturated | applications/kdapps/comment-board/src/wallet/utxo_manager.rs:326-331 | Outputs plus fee equal the inputs' total if and only if that total fits 64 bits; the change output is absent exactly when the change would be zero. |
| CoinSelection.SelectionIsCheapest | applications/kdapps/comment-board/src/wallet/utxo_manager.rs:302-315 | No other choice of as many of the available coins totals less. |
| CoinSelection.CoversUnique | applications/kdapps/comment-board/src/wallet/utxo_manager.rs:302-315 | Only one selection meets the specification. |
| CoinSelection.SortSorts | applications/kdapps/comment-board/src/wallet/utxo_manager.rs:302-303 | The sort returns the same coins in ascending order and keeps the order of coins of one amount. |

## Left out

- 64-bit overflow of times, scores, bond totals, sequence numbers and next_filtering + SAMPLE_REMOVAL_TIME: these are unbounded naturals; episode ids too.
- Event handlers, logging and the metadata text of reverts: they do not feed back into any state modelled here.
- Kaspad RPC, polling, the sink cursor, reconnects, sockets, threads, locks and clocks: the node's updates, merged blocks, received bytes and clock readings are inputs, and channels deliver what is sent.
- Listener after a reconnect that resets the sink: updates missed meanwhile are not part of this model.
- Cryptography, hashing and borsh: functions passed as parameters.
- Two tic-tac-toe situations that panic in the source: a command or a poll with an empty player list. The first game's contract asks for one or two players.
- Engine.FilterOldEpisodes: the creation-time map is visited in an arbitrary order, as the source's hash map is.
- ReceiptEpisode: writes succeed and rows decode; what a process that stops between two writes leaves behind is not modelled.
- MerchantEngine.OneMerchantAgrees: the engine with its database is a function of both; the class Engine is over episodes that keep no outside state, and the class ReceiptEpisode is tied to the same functions one operation at a time.
- Storage: keys, byte encodings, unreadable rows, flushing and errors of the embedded database.
- ContractCommentBoard: fields no modelled command touches (votes, disputes, reputation, highlights), the advanced commands, and the formatting of ids, which are constructors of a datatype.
- Instances for the router-fed engine: routers stamp every event with the default block hash, so the distinct-hash premise of the reorg theorems is not met there; no revert is ever sent on that path.
- Delivery: a sender may send its messages in any order and at any time, and stops when it likes; that retries eventually succeed is not claimed, as the network may drop everything. What one round that arrives achieves is Delivery.RoundConfirmsIff.
- ExactlyOnceInOrder: what a confirmation means is claimed for senders that send no acknowledgements of their own, as the network may hand a sender's message back to a sender; the source's senders send none.
- TcpRouter: failing writes of acknowledgements, and several connections served at the same time.
- SendWithRetry: the receive of each attempt is an input; timeouts are recorded, not waited for.
- Payloads.SearchNonce: that a matching nonce exists depends on the hash; the search is shown to try all 2^32 and to stop at the first. Patterns of any length are allowed, the source fixes ten bits.
- CoinSelection.SpendOnBond: bond plus fee must fit 64 bits, which the source assumes without check; scripts, signing, the second attempt after a refresh and the manager's balance totals are not modelled.
- Rooms of kas-draw, the other comment boards, the indexer, the price heuristics, the HTTP servers, command lines and user interfaces.
