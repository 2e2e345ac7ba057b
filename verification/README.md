# Models and proofs for mintlayer-core

Dafny models of six parts of the node, with what each is relied on for proved
for every input, every run or every interleaving. Code that updates state in
place is modelled by classes and loops; each method is tied to a function on
values, and the theorems are about those functions.

- **The UTXO cache** (`utxo/`): `UtxoLayers` is one cache over its parent, with
  the FRESH and DIRTY flags; `UtxoPrograms` is connecting and disconnecting
  transactions and block rewards; `UtxoEffects` is when these succeed and which
  coins they take and leave; `UtxoTowers` is stacks of caches, whole runs
  against a plain map of coins, and histories that are undone; `UtxoCache` is
  the cache updated in place.
- **The script machine** (`script/`): `ScriptNum` is numbers as bytes,
  `Opcodes` and `Script` are the classifier, the parser and the builder,
  `Machine` is the interpreter on values, `OpcodeMeaning` is what every opcode
  and every byte does, `Structured` is nested conditionals against the mask
  stack, `Conditionals` is which arm runs, at the bytes, `Multisig` is the
  signature matcher, `MachineFacts` is limits, push-only scripts, fused
  verification and the public-key-hash lock, and `Interpreter` is the
  interpreter updated in place.
- **Depth-first post-order** (`utils/src/graph_traversals.rs`): `PostOrder` is
  the iterator, against the recursive order.
- **Orders** (`orders-accounting/`): `OrderPrice` is the price of fills,
  `Orders` the operations and undos, `OrdersCache` the cache updated in place.
  `Deltas` is the part of `accounting/` that orders and tokens stand on, and
  `Runs` is runs of operations and their undos, for both.
- **Tokens** (`tokens-accounting/`): `Tokens` is the operations and undos,
  `TokenEffects` is when they succeed and what may follow, `TokensCache` the
  cache updated in place.
- **The subsystem task** (`subsystem/`): `Subsystem` is a state machine over
  the steps of the main loop, its workers and its callers.

Six promises do not hold of the code for every input. Each has an example
where it fails and the exact condition under which it holds:

- A non-overwriting add is refused on coins that are there, and keeps the
  cache's flags right, exactly when the parent does not alone hold the outpoint
  unspent (`UtxoLayers.AddAnswersIff`).
- Disconnecting a block reward restores the coins exactly when its utxo inputs
  come first and there is at least one, or it has no inputs at all
  (`UtxoPrograms.RewardRestoredIff`).
- Undoing order operations succeeds exactly when no order created in the run
  had a give balance waiting: creating checks the ask balance only
  (`Orders.RunUndoneIff`).
- Undoing token operations succeeds exactly when no minted token started out
  locked with a supply that is not lockable (`Tokens.RunUndoneIff`).
- Flushing an accounting cache into the one below succeeds exactly when no two
  pending changes of an amount overflow together (`Orders.FlushIff`,
  `Tokens.FlushIff`).
- The multi-root traversal gives its order exactly when no root is reachable
  from an earlier one (`PostOrder.PostOrderMultiroot`).

Hash functions, public-key parsing, signature checks and time locks are
parameters of the machine (`Machine.Context`), as are the limits that the
context sets. Amounts are bounded as in the code: unsigned 128 bits, with
signed 128-bit changes, and 64-bit script arithmetic with its wrap-around.

`dafny verify dfyconfig.toml` checks the project.

## Model

| member | source | states |
|---|---|---|
| `UtxoLayers.FetchRefines` | utxo/src/cache.rs:54-72 | Fetching caches without changing the view or the flag invariant; what it returns is what the view shows, and nothing only when the view shows nothing. |
| `UtxoLayers.AddRefines` | utxo/src/cache.rs:274-322 | An add that overwrites, or whose outpoint the parent does not alone hold unspent, succeeds exactly when it overwrites or the view has no such coin; it puts that coin in the view and keeps the invariant. |
| `UtxoLayers.AddKeepsInvariantIff` | utxo/src/cache.rs:274-322 | A non-overwriting add keeps the flag invariant if and only if the parent does not alone hold the outpoint unspent. |
| `UtxoLayers.AddAnswersIff` | utxo/src/cache.rs:274-322 | For a caller: a non-overwriting add is accepted exactly on absent coins if and only if the parent does not alone hold the outpoint unspent. |
| `UtxoLayers.UnsafeAddExample` | utxo/src/cache.rs:274-342 | Adding over a coin that only the parent holds succeeds, and spending what was added brings the parent's coin back. |
| `UtxoLayers.SpendRefines` | utxo/src/cache.rs:326-342 | A spend succeeds exactly when the view has the coin, returns that coin, removes it and nothing else from the view, and keeps the invariant. |
| `UtxoLayers.UncacheRefines` | utxo/src/cache.rs:373-384 | Uncaching never changes the view and keeps the invariant. |
| `UtxoLayers.UncacheAnswers` | utxo/src/cache.rs:373-384 | Uncaching undoes a fetch to the letter and is refused on what was added or spent here and on what is not cached. |
| `UtxoLayers.AddKeepsExactIff` | utxo/src/cache.rs:274-322 | An add keeps FRESH marking exactly the entries of coins the parent lacks, if and only if a non-overwriting one is safe and an overwriting one has something to overwrite. |
| `UtxoLayers.CallsLeaveNoTrace` | utxo/src/cache.rs:274-342 | With exact flags, a coin that is added and spent inside the cache leaves no entry in it. |
| `UtxoLayers.SpendTellsWhy` | utxo/src/cache.rs:326-342 | With exact flags, a refused spend reports a spent coin exactly when the parent has it and a missing one otherwise. |
| `UtxoLayers.FlushRefines` | utxo/src/cache.rs:433-491 | Flushing a child into the cache it was built on never reports a fresh entry over an existing one, keeps that cache's invariant against its own parent, and gives it the child's view at every outpoint. |
| `UtxoLayers.FlushKeepsExact` | utxo/src/cache.rs:433-491 | A flush keeps exact flags exact, so a coin made in one of two caches and spent in the other leaves no entry. |
| `UtxoLayers.MergeRefusedIff` | utxo/src/cache.rs:433-491 | Into any cache at all, a flush is refused exactly when a coin made above is held unspent below. |
| `UtxoLayers.WriteDbRefines` | utxo/src/storage/view_impls.rs:46-63 | Writing the dirty entries of a cache over the database it was built on leaves the database holding the cache's view. |
| `UtxoPrograms.CoinsThenLayer` | utxo/src/cache.rs:147-271 | Whatever connect or disconnect program runs on the plain map of coins runs on the cache, with the same spent coins and the same resulting view. |
| `UtxoPrograms.ProgramRefines` | utxo/src/cache.rs:147-271 | While its adds are safe when it comes to them, a program is accepted by the cache exactly when by the plain map, spends the same coins, and leaves the same coins shown, also where a step is refused half way. |
| `UtxoPrograms.SpendsRemove` | utxo/src/cache.rs:147-173 | Spending a list of outpoints succeeds only if they are distinct and present; it returns their coins in order and removes exactly them. |
| `UtxoPrograms.AddsUndoSpends` | utxo/src/cache.rs:176-208 | Adding back what a list of spends returned restores the coins exactly. |
| `UtxoPrograms.SpendsUndoAdds` | utxo/src/cache.rs:176-208 | Spending the outpoints a list of adds created restores the coins exactly. |
| `UtxoPrograms.TxRestored` | utxo/src/cache.rs:147-208 | Disconnecting a connected transaction with its undo succeeds and restores the coins. |
| `UtxoPrograms.RewardRestoredIff` | utxo/src/cache.rs:211-271 | Disconnecting a connected block reward succeeds and restores the coins if and only if its inputs are absent, or have its utxo inputs, at least one, ahead of all others; this decides when the promise for rewards holds. |
| `UtxoPrograms.CachedRewardRestoredIff` | utxo/src/cache.rs:211-271 | The same if and only if on a cache whose adds are safe, for the coins it shows. |
| `UtxoPrograms.UnalignedExample` | utxo/src/cache.rs:246-271 | A reward whose utxo input follows an account input: disconnecting does not restore the coins. |
| `UtxoEffects.ConnectTxIff` | utxo/src/cache.rs:121-173 | Connecting a transaction succeeds exactly when its coin inputs are there and distinct and nothing it creates is there once they are taken; then output i of a kind that enters the set is the coin at index i of the transaction, the inputs are gone, and every other coin is as before. |
| `UtxoEffects.ConnectRewardIff` | utxo/src/cache.rs:211-243 | The same for a block reward, whose outputs must all be of those kinds and are filed under the block with its height. |
| `UtxoEffects.UndoSlots` | utxo/src/cache.rs:161-173 | The undo of a connected transaction has, input by input, the coin that was there, and nothing for account inputs. |
| `UtxoEffects.DisconnectTxIff` | utxo/src/cache.rs:176-208 | With any undo: disconnecting succeeds exactly when the outputs that enter the set are there and every filled slot is of a coin input whose coin is not there, none twice; then those outputs are gone, the slots are back, and every other coin is as before. |
| `UtxoEffects.DisconnectRewardIff` | utxo/src/cache.rs:246-271 | The same for a block reward, which needs an undo exactly if it has inputs. |
| `UtxoEffects.RewardKindRefused` | utxo/src/cache.rs:211-243 | The first reward output of another kind stops the connection with the error that names the block. |
| `UtxoEffects.MissingUndoRefused` | utxo/src/cache.rs:246-271 | A reward with inputs and no undo is refused with the error that names the block. |
| `UtxoEffects.UndoMismatchRefused` | utxo/src/cache.rs:189-207 | The first undo slot with a coin for an account input stops the disconnection with the error that names the transaction. |
| `UtxoTowers.FlushKeepsView` | utxo/src/view.rs:51-57 | Flushing the top of a stack of caches succeeds and the next one down then shows the same view, with every invariant kept. |
| `UtxoTowers.FlushAllGivesTopView` | utxo/src/view.rs:51-57 | A stack of caches of any depth, flushed top down, leaves the database equal to the view of the top cache. |
| `UtxoTowers.StepRefines` | utxo/src/cache.rs:54-419 | Every call on a stack of caches, whose adds are safe, answers and changes the coins shown as on a plain map of coins: a query and a fetch tell the coin, a spend and a connection the coins taken, a refusal that it was refused. |
| `UtxoTowers.RunRefinesMap` | utxo/src/cache.rs:54-419 | Every run of query, fetch, add, spend, uncache, connection of a transaction or reward, disconnection with any undo, flush and new cache, whose adds are safe when it comes to them, answers call by call as a plain map of coins does, and goes on after refusals. |
| `UtxoTowers.RunKeepsExact` | utxo/src/cache.rs:54-491 | Over every such run whose overwriting adds have something to overwrite, in every cache of the stack: FRESH marks exactly the entries of coins the cache below does not show, and no entry is kept for a coin that neither shows. |
| `UtxoTowers.StepHeight` | utxo/src/view.rs:51-57 | Only a new cache and a flush change the height of a stack of caches, by one. |
| `UtxoTowers.RunKeepsFlags` | utxo/src/utxo_entry.rs:72-94 | No run of those calls, safe or not, leaves in any cache of the stack an entry whose flags the constructor asserts against. |
| `UtxoTowers.HistoryRestoresView` | utxo/src/cache.rs:147-271 | Any history that connects transactions and rewards and disconnects them in reverse order, with flushes anywhere in between, never fails to disconnect; it ends with the view it began with, exactly when the plain map accepts the connections. |
| `UtxoCache.UtxosCache.constructor` | utxo/src/cache.rs:74-82 | A new cache shows its parent. |
| `UtxoCache.UtxosCache.SetBestBlock` | utxo/src/cache.rs:93-95 | Only the best block changes. |
| `UtxoCache.UtxosCache.GetUtxo` | utxo/src/cache.rs:407-415 | The view of one outpoint. |
| `UtxoCache.UtxosCache.HasUtxo` | utxo/src/cache.rs:417-419 | Whether the view has the outpoint. |
| `UtxoCache.UtxosCache.FetchUtxoEntry` | utxo/src/cache.rs:54-72 | The in-place form of the fetch transition. |
| `UtxoCache.UtxosCache.AddUtxo` | utxo/src/cache.rs:274-322 | The in-place form of the add transition, errors included. |
| `UtxoCache.UtxosCache.SpendUtxo` | utxo/src/cache.rs:326-342 | The in-place form of the spend transition, errors included. |
| `UtxoCache.UtxosCache.Uncache` | utxo/src/cache.rs:373-384 | The in-place form of uncaching, errors included. |
| `UtxoCache.UtxosCache.AddUtxosFromTx` | utxo/src/cache.rs:121-144 | The loop over outputs is the program of adds of those outputs that belong in the set, which `UtxoEffects.ConnectTxIff` gives by index and kind; an error leaves the cache where that program stops. |
| `UtxoCache.UtxosCache.SpendInputs` | utxo/src/cache.rs:161-168 | The loop over inputs is the program of spends; the undo has the spent coin for each utxo input and nothing for the others; an error leaves the cache where that program stops. |
| `UtxoCache.UtxosCache.ConnectTransaction` | utxo/src/cache.rs:147-173 | Connecting is the connect program on the cache, with its undo; `UtxoEffects.ConnectTxIff` says which coins that takes and leaves; an error leaves the cache where that program stops. |
| `UtxoCache.UtxosCache.DisconnectTransaction` | utxo/src/cache.rs:176-208 | Disconnecting is the disconnect program on the cache; an error leaves the cache where that program stops. |
| `UtxoCache.UtxosCache.ConnectBlockTransactable` | utxo/src/cache.rs:211-243 | Connecting a reward is the reward's connect program (`UtxoEffects.ConnectRewardIff`), with an undo if anything was spent; an error leaves the cache where that program stops. |
| `UtxoCache.UtxosCache.DisconnectBlockTransactable` | utxo/src/cache.rs:246-271 | Disconnecting a reward is its disconnect program, a missing undo being an error; an error leaves the cache where that program stops. |
| `UtxoCache.UtxosCache.BatchWrite` | utxo/src/cache.rs:433-491 | The loop over entries in any order succeeds exactly when the entries can be merged and leaves the merged entries and the new best block. |
| `UtxoCache.FlushToBase` | utxo/src/view.rs:51-57 | Flushing a cache over another succeeds, keeps the lower one's invariant and makes its view the upper one's. |
| `UtxoCache.UtxosDb.BatchWrite` | utxo/src/storage/view_impls.rs:46-63 | The loop over entries in any order leaves the database with the dirty entries written. |
| `ScriptNum.BuildScriptInt` | script/src/script.rs:103-128 | The byte loop computes the sign-and-magnitude encoding of the number. |
| `ScriptNum.DecodeEncode` | script/src/script.rs:103-166 | Decoding an encoded number gives it back, for every integer. |
| `ScriptNum.EncodedLength` | script/src/script.rs:103-128 | An encoding fits in `k` bytes exactly when the magnitude is below 2^(8k-1). |
| `ScriptNum.EncodeIsShortest` | script/src/script.rs:103-128 | The encoding is the one shortest byte string that decodes to the number. |
| `ScriptNum.ReadIsDecode` | script/src/script.rs:150-166 | For up to eight bytes the fold in 64-bit arithmetic, with its shifts and sign mask, never overflows and computes the decoding. |
| `ScriptNum.ReadEncoded` | script/src/script.rs:144-166 | Reading an encoded number with a size limit of k bytes, k up to eight, gives the number when its magnitude is below 2^(8k-1) (only zero for k = 0) and a numeric overflow otherwise. |
| `ScriptNum.BoolIsNonZero` | script/src/script.rs:171-175 | A byte string of any length is true exactly when it decodes to a number other than zero. |
| `ScriptNum.ReadUint` | script/src/script.rs:178-188 | The byte loop reads the little-endian number of the first `size` bytes, or reports an early end. |
| `Opcodes.ClassesByByte` | script/src/opcodes.rs:667-724 | Which bytes each class of opcodes takes, in both directions. |
| `Opcodes.OrdinaryByteUnique` | script/src/opcodes.rs:800-903 | Every ordinary opcode is named by exactly one byte. |
| `Script.Instructions.Next` | script/src/script.rs:479-528 | The cursor step returns the instruction at the front and moves past it, or reports an error and stops. |
| `Script.ParsePrinted` | script/src/script.rs:479-528 | One printed instruction, followed by anything, parses to itself and leaves what follows. |
| `Script.PrintParsed` | script/src/script.rs:479-528 | An instruction parsed with minimal pushes enforced is minimal and prints to exactly the bytes it was parsed from. |
| `Script.ParseAllPrinted` | script/src/script.rs:479-528 | A printed list of instructions parses to that list. |
| `Script.PrintAllParsed` | script/src/script.rs:479-528 | Every byte string that parses with minimal pushes enforced prints back to itself byte for byte. |
| `Script.ParseDirectPush` | script/src/script.rs:479-528 | A push of up to 75 bytes parses to its data; under minimality a single byte that has an opcode of its own is refused. |
| `Script.ParseFieldPush` | script/src/script.rs:479-528 | A push with a length field, whatever its length, parses to its data; under minimality it is refused exactly if a shorter form would do. |
| `Script.ParseBrokenPush` | script/src/script.rs:479-528 | A push or length field that the script breaks off ends the script early. |
| `Script.IntInstrMinimal` | script/src/script.rs:551-573 | The instruction for an integer is minimal. |
| `Script.IntInstrPushes` | script/src/script.rs:551-573 | The instruction for an integer pushes that integer. |
| `Script.SliceInstrPushes` | script/src/script.rs:609-616 | The instruction for minimal data pushes that data. |
| `Script.Builder.PushInt` | script/src/script.rs:551-573 | Appends exactly the instruction for the integer. |
| `Script.Builder.PushSlice` | script/src/script.rs:576-606 | Appends exactly one push of the data. |
| `Script.Builder.PushSliceMinimal` | script/src/script.rs:609-616 | Appends exactly the minimal instruction for the data. |
| `Script.Builder.PushOpcode` | script/src/script.rs:619-623 | Appends the opcode; one that carries no data appends exactly its instruction. |
| `Script.Builder.PushVerify` | script/src/script.rs:629-649 | Rewrites the last instruction to its verifying form or appends OP_VERIFY, and never touches a data byte. |
| `Script.NewP2pkh` | script/src/script.rs:205-213 | The builder calls produce the five-instruction lock for the hash. |
| `Script.BuildPieces` | script/src/script.rs:551-623 | What any sequence of minimal slices, integers and non-push opcodes builds parses, with minimal pushes enforced, to exactly those instructions. |
| `Structured.FlatIsNested` | script/src/interpreter.rs:215-356 | Running the flat form of a nested block under any mask equals evaluating the block and going on with what follows. |
| `Structured.RunsToEndBalanced` | script/src/interpreter.rs:303-356 | Instructions that run to an empty mask stack have balanced IF, ELSE and ENDIF. |
| `Structured.NestedForm` | script/src/interpreter.rs:303-327 | Every balanced instruction list is the flat form of a nested block. |
| `Structured.BytesAreFlat` | script/src/interpreter.rs:231-242 | Running the bytes is running the parsed instructions. |
| `Structured.AcceptedIsNested` | script/src/interpreter.rs:215-356 | Every script that ends without error has a nested form, and evaluating it gives the same stack. |
| `Structured.ScriptIsNested` | script/src/interpreter.rs:215-356 | The result of a script with a nested form is the evaluation of that form, errors included. |
| `Structured.SkippedBlock` | script/src/interpreter.rs:231-355 | A skipped block, however nested, with no code separator, illegal opcode or oversize push, leaves both stacks as they were. |
| `Structured.EvalIsMeaning` | script/src/interpreter.rs:231-355 | On such blocks the masked evaluation is the plain meaning: with IF the odd arms when the condition reads as a number other than zero and the even arms otherwise, with NOTIF the other way round, and nothing of the others. |
| `Structured.ScriptIsMeaning` | script/src/interpreter.rs:215-356 | For scripts with no code separator, illegal opcode or oversize push, running with the mask stack equals the recursive meaning of the nested form, in which a condition is its number compared with zero. |
| `Structured.ConditionRead` | script/src/interpreter.rs:308-319 | A taken IF goes on exactly if the item on top is a number other than zero, NOTIF exactly if it is zero; under the minimal rule only the two canonical items are accepted. |
| `Conditionals.IfElseTakes` | script/src/interpreter.rs:303-327 | The bytes of IF, an arm, ELSE, an arm, ENDIF run on a stack with a condition on top give the meaning of the first arm if the condition is not zero and of the second if it is; with NOTIF the arms are exchanged. |
| `Conditionals.IfElseRuns` | script/src/interpreter.rs:215-356 | So, without signature opcodes, such a script gives what running the bytes of the taken arm alone gives. |
| `Multisig.AssignmentIsFound` | script/src/interpreter.rs:360-393 | If some strictly increasing assignment of signatures to accepting keys exists, the greedy matcher does not answer no, so neither greed nor the early length cut-off loses a solution. |
| `Multisig.FoundIsAssignment` | script/src/interpreter.rs:360-393 | A yes comes with such an assignment. |
| `Multisig.OnlyMalformedFails` | script/src/interpreter.rs:360-393 | The matcher fails only with a public key that cannot be parsed. |
| `Multisig.MatcherDecides` | script/src/interpreter.rs:360-393 | The matcher answers yes exactly when an assignment exists and no exactly when none does, and always answers when every key parses. |
| `Multisig.MalformedKeyFailsIff` | script/src/interpreter.rs:360-393 | With a key that does not parse, the matcher fails if and only if the keys in front of it can take some of the signatures and not one more, and those left over are no more than the keys left. |
| `OpcodeMeaning.UnaryMeaning` | script/src/interpreter.rs:469-474 | The six opcodes of one number, for every operand of up to four bytes. |
| `OpcodeMeaning.SumMeaning` | script/src/interpreter.rs:475-476 | ADD and SUB: the sum, and the lower operand less the top one. |
| `OpcodeMeaning.OrderMeaning` | script/src/interpreter.rs:481-484 | The four comparisons leave the truth of their order. |
| `OpcodeMeaning.EqualityMeaning` | script/src/interpreter.rs:477-480 | Equality, inequality and the two connectives; NUMEQUALVERIFY goes on exactly on equal numbers. |
| `OpcodeMeaning.BoundMeaning` | script/src/interpreter.rs:485-486 | MIN and MAX leave one of the two numbers, which bounds both. |
| `OpcodeMeaning.WithinMeaning` | script/src/interpreter.rs:487-492 | True exactly from the lower bound on and below the upper one. |
| `OpcodeMeaning.LongOperand` | script/src/interpreter.rs:507-519 | An operand of more than four bytes is refused, wherever it stands. |
| `OpcodeMeaning.OneMeaning` | script/src/interpreter.rs:404-406 | DROP and DUP, item by item, whatever lies below. |
| `OpcodeMeaning.TwoMeaning` | script/src/interpreter.rs:405-407 | 2DROP and 2DUP, the same. |
| `OpcodeMeaning.PairMeaning` | script/src/interpreter.rs:409-443 | OVER, SWAP, NIP and TUCK, the same. |
| `OpcodeMeaning.ThreeMeaning` | script/src/interpreter.rs:408-438 | 3DUP and ROT, the same. |
| `OpcodeMeaning.PairsMeaning` | script/src/interpreter.rs:410-412 | 2OVER and 2SWAP, the same. |
| `OpcodeMeaning.TurnMeaning` | script/src/interpreter.rs:413-418 | 2ROT, the same. |
| `OpcodeMeaning.DepthMeaning` | script/src/interpreter.rs:424-434 | PICK copies and ROLL moves the item that many places down; negative and too deep places are refused. |
| `OpcodeMeaning.CountMeaning` | script/src/interpreter.rs:444-461 | DEPTH, SIZE and IFDUP, with their limits. |
| `OpcodeMeaning.EqualMeaning` | script/src/interpreter.rs:462-502 | EQUAL compares the bytes; EQUALVERIFY and VERIFY go on exactly on equal bytes and on a true item. |
| `OpcodeMeaning.HashMeaning` | script/src/interpreter.rs:495-499 | Each hash opcode replaces the top item by its own hash. |
| `OpcodeMeaning.ShortStack` | script/src/interpreter.rs:396-504 | With fewer items than it works on every ordinary opcode fails. |
| `OpcodeMeaning.ChecksigMeaning` | script/src/interpreter.rs:257-271 | With the key on top of the signature: a key that does not parse is an error, otherwise the truth of whether the signature fits the key; the verifying form goes on exactly if it fits. |
| `OpcodeMeaning.MultisigMeaning` | script/src/interpreter.rs:272-302 | On a dummy, signatures, their count, keys that parse and their count, the opcode leaves whether the signatures can be assigned in order to keys they fit; the verifying form goes on exactly if they can; a dummy that is not empty is refused. |
| `OpcodeMeaning.MultisigRefuses` | script/src/interpreter.rs:272-291 | Counts that are no numbers, negative, too large or more than the stack has are refused, each with its error. |
| `OpcodeMeaning.SimpleByteMeaning` | script/src/interpreter.rs:236-246 | At their bytes: illegal opcodes fail and code separators move even where skipped; no-ops, returns and the pushed numbers. |
| `OpcodeMeaning.PushMeaning` | script/src/interpreter.rs:231-242 | A push adds its data if taken, and fails if too large even where skipped. |
| `OpcodeMeaning.SkippedByteMeaning` | script/src/interpreter.rs:231-342 | Every other opcode that is no conditional is only counted where skipped. |
| `OpcodeMeaning.AltStackMeaning` | script/src/interpreter.rs:253-256 | 0x6b moves the top item to the other stack and 0x6c moves it back. |
| `OpcodeMeaning.TimeLockMeaning` | script/src/interpreter.rs:328-335 | 0xb1 asks about the lock time and 0xb2 about the sequence, of a number of up to five bytes that stays on the stack. |
| `OpcodeMeaning.OrdinaryByteMeaning` | script/src/interpreter.rs:336-338 | Each ordinary opcode runs at the byte that names it. |
| `OpcodeMeaning.ConditionalByteMeaning` | script/src/interpreter.rs:308-327 | The four conditionals on the mask stack where skipped, ELSE and ENDIF also where taken. |
| `OpcodeMeaning.ConditionMeaning` | script/src/interpreter.rs:308-319 | A taken 0x63 or 0x64 pops its condition and masks what follows by whether it is zero. |
| `OpcodeMeaning.SignatureByteMeaning` | script/src/interpreter.rs:257-302 | The four signature bytes run their opcodes against the script since the last separator. |
| `OpcodeMeaning.VerifyFormMeaning` | script/src/script.rs:629-649 | Exactly four opcodes have a verifying form, and it does what the opcode does and then what OP_VERIFY does. |
| `MachineFacts.StepKeepsLimits` | script/src/interpreter.rs:215-356 | After every successful instruction both stacks together are within the limit, and items stay within the element size if they were. |
| `MachineFacts.RunKeepsLimits` | script/src/interpreter.rs:215-356 | The same over every run of instructions. |
| `MachineFacts.PushdataIsRun` | script/src/interpreter.rs:185-210 | On scripts made only of pushes, running for push data and running the script from the empty stack give the same result, errors included. |
| `MachineFacts.PushdataAccepted` | script/src/interpreter.rs:185-210 | Whenever running for push data accepts, running the script from the empty stack accepts with the same stack. |
| `MachineFacts.FusedIsAppended` | script/src/script.rs:629-649 | For scripts without signature opcodes, within the limits, the fused verifying form gives the same result as appending OP_VERIFY. |
| `MachineFacts.LockRun` | script/src/script.rs:205-213 | Exactly what the public-key-hash lock does from any stack with two places to spare. |
| `MachineFacts.P2pkhOpensIff` | script/src/interpreter.rs:174-182 | Through builder, parser and interpreter, in every context: the lock opens if and only if the context has room for it, the unlocking script pushes exactly a signature and a key, the key hashes to the lock's hash, and the one-of-one check passes on the whole lock script. |
| `Interpreter.IdleIsMasked` | script/src/interpreter.rs:142-165 | The idle counter is zero exactly when no branch is masked. |
| `Interpreter.ExecStack.Push` | script/src/interpreter.rs:144-147 | Pushes a branch; the counter stays the number of masked ones. |
| `Interpreter.ExecStack.Pop` | script/src/interpreter.rs:150-154 | Pops the last branch, if any; the counter stays the number of masked ones. |
| `Interpreter.ExecStack.Executing` | script/src/interpreter.rs:157-159 | True exactly when every branch is taken. |
| `Interpreter.DataStack.Pop` | script/src/interpreter.rs:58-60 | Pops the top or reports too few elements. |
| `Interpreter.DataStack.PopInt` | script/src/interpreter.rs:68-70 | Pops a number of at most four bytes, so within 32 bits. |
| `Interpreter.DataStack.Remove` | script/src/interpreter.rs:129-132 | Takes out the n-th item from the top and keeps the order of the rest. |
| `Interpreter.DataStack.SwapTop` | script/src/interpreter.rs:122-126 | Exchanges the top n items with the n below them. |
| `Interpreter.DataStack.DupRange` | script/src/interpreter.rs:117-119 | Copies a range of items to the top. |
| `Interpreter.ShuffleStack` | script/src/interpreter.rs:403-443 | The calls that make up each stack opcode give the rearrangement the opcode names. |
| `Interpreter.BinaryFits` | script/src/interpreter.rs:468-519 | Arithmetic on numbers read from the stack never leaves 64 bits nor reaches the one number that cannot be encoded. |
| `Interpreter.ExecuteOpcode` | script/src/interpreter.rs:396-504 | Executing an opcode in place computes its effect, which the lemmas of `OpcodeMeaning` give opcode by opcode, or its error; no index is out of range. |
| `Interpreter.CheckMultisigLoop` | script/src/interpreter.rs:360-393 | The loop over two iterators computes the recursive matcher, and keys never run out before its cut-off. |
| `Interpreter.CheckSigOp` | script/src/interpreter.rs:257-302 | All four signature opcodes in place, with the final pop of the verifying forms; `OpcodeMeaning.ChecksigMeaning` and `OpcodeMeaning.MultisigMeaning` say what they answer. |
| `Interpreter.CheckMultisigOp` | script/src/interpreter.rs:272-296 | The multi-signature arm in place, up to the pushed verdict of `OpcodeMeaning.MultisigMeaning`, with every count checked before it is used. |
| `Interpreter.Run.Conditional` | script/src/interpreter.rs:308-327 | IF, NOTIF, ELSE and ENDIF on the mask stack, in place, as `OpcodeMeaning.ConditionMeaning` and `OpcodeMeaning.ConditionalByteMeaning` give them. |
| `Interpreter.Run.Step` | script/src/interpreter.rs:231-348 | One turn of the loop is one step of the machine; the push classes never reach the unreachable arms. |
| `Interpreter.RunScriptLoop` | script/src/interpreter.rs:215-356 | For every byte string and stack the loop ends, without an index out of range or an overflow, with the machine's result. |
| `Interpreter.RunPushdataLoop` | script/src/interpreter.rs:185-210 | The push-data loop ends with the machine's result. |
| `Interpreter.VerifyWitnessLockRun` | script/src/interpreter.rs:174-182 | Unlocking, locking and the final check, in place. |
| `PostOrder.Traversal.constructor` | utils/src/graph_traversals.rs:37-43 | The stack holds the roots, the first on top, and all roots count as visited. |
| `PostOrder.Traversal.Next` | utils/src/graph_traversals.rs:45-62 | A step emits the next node of the recursive depth-first order and ends, or emits nothing when the stack is empty; what is left to do always shrinks. |
| `PostOrder.UnwindDescend` | utils/src/graph_traversals.rs:47-58 | Going down to an unvisited child leaves what the recursive order still has to emit unchanged. |
| `PostOrder.UnwindRoots` | utils/src/graph_traversals.rs:37-43 | The stack of roots stands for the recursive order of all of them. |
| `PostOrder.FinishedCovers` | utils/src/graph_traversals.rs:26-65 | A finished traversal has emitted exactly the nodes reachable from the roots. |
| `PostOrder.OrderNeedsOrderedRoots` | utils/src/graph_traversals.rs:26-65 | If the emitted nodes are distinct and children come first, no root is reachable from an earlier one. |
| `PostOrder.PostOrderMultiroot` | utils/src/graph_traversals.rs:26-65 | On a finite DAG the traversal ends, with exactly the recursive depth-first post-order of the roots; it emits exactly the reachable nodes; and it emits each once and after all its children if and only if the roots are distinct and none is reachable from an earlier one. |
| `PostOrder.ChildRootExample` | utils/src/graph_traversals.rs:37-62 | With a root that is a child of an earlier root, the earlier one is emitted before its child. |
| `PostOrder.PostOrderFrom` | utils/src/graph_traversals.rs:67-74 | From one root: the recursive depth-first post-order, every reachable node once, after all its children, the root last. |
| `OrderPrice.CalculateFilledAmount` | orders-accounting/src/price_calculation.rs:56-65 | A price is the greatest amount whose product with ask is at most give times fill; there is none exactly for an empty ask or beyond 128 bits. |
| `OrderPrice.ProductFits` | orders-accounting/src/price_calculation.rs:61-61 | The product of two 128-bit amounts fits 256 bits. |
| `OrderPrice.FillHasPrice` | orders-accounting/src/price_calculation.rs:25-65 | A fill within what is asked always has a price, at most what there is to give; a fill of all pays out all. |
| `OrderPrice.FillsAreFair` | orders-accounting/src/price_calculation.rs:25-65 | Over any run of n fills paying F in all: the give to ask ratio has not fallen; the amount received times ask is at most give times F and less than n asks below it; a complete fill pays out everything. |
| `OrderPrice.SplittingNeverPays` | orders-accounting/src/price_calculation.rs:25-65 | Splitting a payment never receives more than one fill of the total, and at most one unit less for each extra fill. |
| `Orders.FillPricedIff` | orders-accounting/src/price_calculation.rs:25-88 | A fill is priced if and only if the order exists, its balances can be read, the currency is the one asked for, and the payment is within an ask that is not used up; the overflow error means the ask is used up. |
| `Orders.FillIff` | orders-accounting/src/cache.rs:205-219 | A fill succeeds if and only if it has a price and both amounts fit a signed change. |
| `Orders.FillRefusals` | orders-accounting/src/price_calculation.rs:25-88 | Which error a fill of an order that can be read meets, in the order of the checks. |
| `Orders.ConcludeIff` | orders-accounting/src/cache.rs:180-203 | Concluding succeeds if and only if the order is there and both balances can be read and fit a signed change. |
| `Orders.CreateIff` | orders-accounting/src/cache.rs:143-178 | Creating succeeds if and only if there is no such order nor ask balance, both amounts are supported, positive and fit a signed change, and the give balance takes its amount; otherwise with the error of the first check that fails. |
| `Orders.UndoCreateIff` | orders-accounting/src/cache.rs:64-84 | A creation is undone if and only if the order is there with the very balances it was created with. |
| `Orders.UndoConcludeIff` | orders-accounting/src/cache.rs:86-106 | A conclusion is undone if and only if there is no such order and both balances are zero. |
| `Orders.CreateShows` | orders-accounting/src/cache.rs:143-178 | A new order shows its data, asks exactly what it names, and adds what it gives to the give balance. |
| `Orders.FillMovesBook` | orders-accounting/src/cache.rs:205-219 | A fill takes the payment off the ask balance and exactly its price off the give balance. |
| `Orders.FillRunIsFills` | orders-accounting/src/cache.rs:205-219 | A run of fills in the cache is the run of fills of the order's book. |
| `Orders.RunOfFillsIsFair` | orders-accounting/src/cache.rs:205-219 | The bounds on a run of fills, in the cache's own balances. |
| `Orders.ApplyTouchesOne` | orders-accounting/src/cache.rs:143-219 | An operation changes what is shown of no other order. |
| `Orders.ApplyKeepsNoOrphans` | orders-accounting/src/cache.rs:143-219 | Operations keep balances of missing orders at zero. |
| `Orders.CreateUndoneIff` | orders-accounting/src/cache.rs:64-84 | Undoing a creation succeeds if and only if the give balance read zero before it, and then restores every query. |
| `Orders.OrphanGiveExample` | orders-accounting/src/cache.rs:64-84 | With a give balance left for a missing order, a creation that succeeds cannot be undone. |
| `Orders.ConcludeUndone` | orders-accounting/src/cache.rs:86-106 | Concluding leaves both balances at zero; undoing it always succeeds and restores every query. |
| `Orders.FillUndone` | orders-accounting/src/cache.rs:108-113 | Undoing a fill always succeeds and restores every query. |
| `Orders.RunUndoneIff` | orders-accounting/src/cache.rs:64-228 | Undoing any successful run, last first, succeeds if and only if no order it creates anew had a give balance before the run; then every query answers as before. |
| `Orders.RunUndone` | orders-accounting/src/cache.rs:64-228 | Where balances belong to orders, any successful run can be undone, last first: no guard rejects and every query is restored. |
| `Orders.ApplyKeepsRooted` | orders-accounting/src/cache.rs:143-219 | Operations keep every change of data starting from what the parent holds. |
| `Orders.FlushIff` | orders-accounting/src/data.rs:52-71 | Flushing a cache into the one it was built on never finds the data at odds, fails if and only if two pending changes of a balance overflow together, and otherwise leaves the lower one answering every query as the upper one did. |
| `Orders.ReadableFlushes` | orders-accounting/src/data.rs:52-71 | A cache whose balances can all be read can always be flushed. |
| `OrdersCache.OrdersAccountingCache.PerformAll` | orders-accounting/src/cache.rs:143-219 | The loop over operations, each in place with its guards in order, does what the run does and keeps its undos, or stops with its error. |
| `OrdersCache.OrdersAccountingCache.UndoEverything` | orders-accounting/src/cache.rs:64-228 | The loop that undoes a run last first meets no rejecting guard if and only if no order the run creates anew had a give balance before it; then every getter answers as before the run. |
| `OrdersCache.OrdersAccountingCache.BatchWrite` | orders-accounting/src/cache.rs:234-239 | The loops over data, ask and give changes, in any order of keys, compute the flush or its error. |
| `OrdersCache.FlushToBase` | orders-accounting/src/cache.rs:234-239 | In place: fails exactly where two pending changes overflow together, and otherwise every getter of the lower cache answers as the upper one. |
| `Deltas.MergeUndone` | accounting/src/delta/delta_amount_collection.rs:56-98 | Merging a signed amount is undone, to the letter, by merging its negation; no other key is touched. |
| `Deltas.MergeDataShows` | accounting/src/delta/delta_data_collection/mod.rs:91-167 | Merging a change that starts from what is shown always succeeds, shows the new datum and touches no other key. |
| `Deltas.MergeDeltaData` | accounting/src/delta/delta_data_collection/mod.rs:101-131 | The loop over data changes succeeds exactly when each starts where the collection left its datum, and then combines them key by key. |
| `Deltas.MergeDeltaAmounts` | accounting/src/delta/delta_amount_collection.rs:36-83 | The loop over signed changes succeeds exactly when no sum leaves the signed range, and then adds them key by key, dropping zeros. |
| `Deltas.DataFlushed` | accounting/src/delta/delta_data_collection/mod.rs:101-167 | Changes rooted in what a cache shows always fit on top of its own, and then it shows what they show. |
| `Deltas.AmountFlushed` | accounting/src/delta/combine.rs:52-62 | An amount reads the same through two layers of changes and through their sum, failures included. |
| `Tokens.IssuedTokenActs` | tokens-accounting/src/data.rs:258-272 | Right after it is issued, a token shows what it was issued with, has no supply, can be frozen exactly if issued freezable, and locked exactly if its supply is lockable. |
| `Tokens.StepShows` | tokens-accounting/src/cache.rs:92-339 | A successful operation puts its new data and supply in what is shown of its token, which `TokenEffects.OperationLeaves` gives field by field, and changes no other. |
| `TokenEffects.OperationLeaves` | tokens-accounting/src/cache.rs:92-339 | A successful operation changes exactly the one field it is for, to the value given, moves the supply by what is minted or unminted, and touches no other token. |
| `TokenEffects.AfterFreeze` | tokens-accounting/src/data.rs:170-231 | After a freeze the token can be unfrozen if and only if it was frozen so, and until then every other operation is refused; once unfrozen it is as before and can be frozen again. |
| `TokenEffects.AfterLock` | tokens-accounting/src/cache.rs:114-221 | After a lock, minting, unminting and a second lock are refused, each with its error. |
| `TokenEffects.IssueIff` | tokens-accounting/src/cache.rs:92-112 | Issuing succeeds if and only if the token does not exist and its supply reads zero. |
| `TokenEffects.MintIff` | tokens-accounting/src/cache.rs:114-154 | Minting succeeds if and only if the token exists, is not frozen, stays within a fixed limit, is not locked if lockable, and the change can be written down. |
| `TokenEffects.UnmintIff` | tokens-accounting/src/cache.rs:156-189 | Unminting succeeds if and only if the token exists, is neither locked nor frozen, and has that much. |
| `TokenEffects.DataOpsIff` | tokens-accounting/src/cache.rs:191-339 | Locking, freezing, unfreezing and changing authority or metadata each succeed if and only if the token exists and is in the state they ask for. |
| `TokenEffects.UndoIff` | tokens-accounting/src/cache.rs:341-456 | An undo succeeds if and only if the token exists in a state its operation could have left and the change can be written down. |
| `TokenEffects.UndoLeaves` | tokens-accounting/src/cache.rs:341-456 | A successful undo leaves the token its change leads to, or moves the supply back, and touches no other token. |
| `Tokens.StepKeepsInv` | tokens-accounting/src/cache.rs:92-339 | Operations keep supplies within fixed limits and not negative, at zero for missing tokens, and locked only if lockable. |
| `Tokens.StepIsLater` | tokens-accounting/src/data.rs:155-256 | What an operation never changes of a token: supply kind, ticker, decimals, a locked supply, that it cannot be frozen, and everything once frozen for good. |
| `Tokens.RunIsSafe` | tokens-accounting/src/cache.rs:92-339 | Over every run: no fixed supply exceeds its limit; supply moves by minted less unminted; once locked it never changes; a token that cannot be frozen never is; a token frozen for good keeps its data and supply. |
| `Tokens.IssuedTokenIsSafe` | tokens-accounting/src/cache.rs:92-339 | Over a run that issues a token: its supply is minted less unminted, within a fixed limit, and if issued not freezable it is not frozen at the end. |
| `Tokens.NoReissue` | tokens-accounting/src/cache.rs:92-112 | A token that exists is never issued again in a successful run. |
| `Tokens.SupplyReadsIff` | tokens-accounting/src/cache.rs:73-77 | A supply reads back as itself, and can be read exactly when nothing is pending on it or it fits a signed amount. |
| `Tokens.UndoneOnceIff` | tokens-accounting/src/cache.rs:341-456 | An undo succeeds if and only if it is not of a mint of a locked token whose supply is not lockable, and then restores every query. |
| `Tokens.LockedFixedExample` | tokens-accounting/src/cache.rs:351-367 | A fixed supply that starts out locked can be minted, and the mint cannot be undone. |
| `Tokens.RunUndoneIff` | tokens-accounting/src/cache.rs:341-456 | Undoing any successful run, last first, succeeds if and only if no token it mints started out locked with a supply that is not lockable; then every query answers as before. |
| `Tokens.RunUndone` | tokens-accounting/src/cache.rs:341-456 | On properly issued tokens any successful run can be undone, last first: no guard rejects and every query is restored. |
| `Tokens.ApplyKeepsRooted` | tokens-accounting/src/cache.rs:92-339 | Operations keep every change of data starting from what the parent holds. |
| `Tokens.FlushIff` | tokens-accounting/src/data.rs:62-75 | Flushing a cache into the one it was built on never finds the data at odds, fails if and only if two pending changes of a supply overflow together, and otherwise leaves the lower one answering every query as the upper one did. |
| `Tokens.ReadableFlushes` | tokens-accounting/src/data.rs:62-75 | A cache whose supplies can all be read can always be flushed. |
| `Tokens.OverfullFlushExample` | tokens-accounting/src/data.rs:62-75 | An unlimited token minted to the signed limit, and by one more in a cache on top: the flush fails. |
| `TokensCache.TokensAccountingCache.PerformAll` | tokens-accounting/src/cache.rs:92-339 | The loop over operations, each in place with its guards in order, does what the run does, operation by operation as `TokenEffects.OperationLeaves` gives it, and keeps its undos, or stops with its error. |
| `TokensCache.TokensAccountingCache.UndoEverything` | tokens-accounting/src/cache.rs:341-456 | The loop that undoes a run last first meets no rejecting guard if and only if no token it minted started out locked with a supply that is not lockable; then every getter answers as before the run. |
| `TokensCache.TokensAccountingCache.BatchWrite` | tokens-accounting/src/cache.rs:83-88 | The loops over data and supply changes, in any order of keys, compute the flush or its error. |
| `TokensCache.FlushToBase` | tokens-accounting/src/cache.rs:83-88 | In place: fails exactly where two pending changes overflow together, and otherwise every getter of the lower cache answers as the upper one. |
| `Subsystem.StepKeepsInv` | subsystem/src/task.rs:88-136 | Every step of the main loop, its workers and its callers keeps the counts of references and readers, the channel order, the readers' state and the shutdown bounds. |
| `Subsystem.UnwrapNeverFails` | subsystem/src/task.rs:128-136 | In every interleaving the references are one and the live workers, so the final unwrapping cannot fail. |
| `Subsystem.CallsAreOrderedAndApart` | subsystem/src/task.rs:102-125 | In every interleaving mutating calls begin in channel order, one at a time, and neither they nor background work overlap a read; a worker reads one unchanging state, after every mutating call ahead of it. |
| `Subsystem.ReadersComeAfterWrites` | subsystem/src/task.rs:102-114 | In every interleaving, a reading call that has been taken is with its own worker, and every mutating call ahead of it in the channel has begun, in order, and completed. |
| `Subsystem.SourcesArePolledInOrder` | subsystem/src/task.rs:88-125 | The loop comes to the calls only without a signal, to the workers only without a call, and to the background work only without a finished worker. |
| `Subsystem.NothingElseMeanwhile` | subsystem/src/task.rs:102-125 | In every interleaving, while a mutating call or background work waits for the lock or runs, no call is taken and no worker spawned before it has made its change. |
| `Subsystem.WriteGetsDone` | subsystem/src/task.rs:102-125 | Once the loop waits for the write lock it can get it without any caller: after one step for each reader it takes the lock, makes exactly one change and polls again. |
| `Subsystem.OfferedWorkIsDone` | subsystem/src/task.rs:122-124 | Background work that is offered can be done without any caller: the loop goes for the write lock, takes it, and makes exactly one change. |
| `Subsystem.SignalStopsCalls` | subsystem/src/task.rs:88-114 | At most one call is taken after the shutdown signal is sent. |
| `Subsystem.NoCallAfterShutdown` | subsystem/src/task.rs:94-136 | Once the loop has taken the signal, no call is taken or begun and no worker is spawned. |
| `Subsystem.NeverStuck` | subsystem/src/task.rs:88-136 | Before the end, the main loop or one of its workers can always go on. |
| `Subsystem.ShutdownCompletes` | subsystem/src/task.rs:88-136 | From the moment the shutdown signal is sent, whatever callers do, at most four steps for each worker and seven more are made, the one extra call and the wait for the lock included; the rest can always go on until the subsystem is unwrapped. |

## Left out

- Failures of the parent view and of storage: views always answer, so only the errors the caches themselves raise are modelled.
- State of the accounting caches after an error, and of a UTXO cache after a failed batch write: the code does not promise it, and the in-place contracts say nothing of it.
- `get_mut_utxo`, memory use, estimated sizes and debug output of the UTXO cache.
- `add_utxos_from_block_reward` and adding outputs with the overwrite check taken from the caller: connecting uses the forms modelled here.
- The order in which a batch is written: the loops over entries are proved for any order.
- Undo collections per block and their source lists (`utxo/src/undo.rs`).
- UtxoEffects.ConnectTxIff: asks for at most 2^32 outputs, past which the 32-bit indices of the code start over.
- UtxoEffects.ConnectRewardIff: the same for reward outputs.
- UtxoEffects.DisconnectTxIff: the same.
- UtxoEffects.DisconnectRewardIff: the same.
- A builder started from raw bytes: the builder theorems are about builders grown from empty.
- ScriptNum.BuildScriptInt: does not cover the least 64-bit number, on which the code stops: its negation overflows, and every build profile traps overflow (Cargo.toml:276-296).
- Script.Builder.PushInt: the same, since it encodes with ScriptNum.BuildScriptInt.
- Disassembly text, serialisation, and the other script templates and predicates.
- The databases behind the two accounting caches, and undoing a whole flushed delta.
- Orders.FlushIff: asks that the balances of the lower cache can be read, since a parent that cannot answer is not modelled.
- Tokens.FlushIff: the same for supplies.
- The command side of orders and tokens: fees, signatures and who may call an operation.
- Pools and delegations, consensus, chain state, mempool, wallet, networking and user interfaces.
- Setting up a subsystem and its failure, its own shutdown, panicking workers, and the order in which the lock serves its waiters: any waiting reader may go first, so the proofs hold for every order.
