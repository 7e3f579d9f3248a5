# Nuke Foot Cockroach: the play handler's decision core

This Dafny project models the decision core of the "death lasts forever"
action endpoint. The endpoint is a Solana Action. Its GET describes three
buttons, one per move. Its POST plays one round of a rock-paper-scissors
variant against a random CPU move. The round is played with the player's
game asset, a Metaplex Core asset in a fixed collection. The POST answers
with an unsigned transaction that has these instructions, in order:

- a 0.0001 SOL fee transfer from the player to the minting authority;
- if the player has no active game asset, the creation of one, whose new key
  must co-sign;
- on a win, an attributes update that sets `Wins` to the old value plus one;
  on a loss, an update that renames the asset `Dead` and points it at the
  death metadata.

The model has five modules:

- `Wrappers` (`wrappers.dfy`): `Option` and `Result`.
- `Game` (`game.dfy`):
  - the moves `CHOICES`;
  - the win and loss guards, written the way the handler writes them;
  - `Judge`, which applies the guards in order;
  - a reference relation `Beats`: each move beats the move listed after it
    in `CHOICES`, cyclically. The guards are proved against this relation.
- `Assets` (`assets.dfy`):
  - the asset record and its update authority;
  - the `Wins` counter: a natural count, or NaN, which `parseInt` gives when
    there is no value or no number (and which a win writes back as "NaN");
  - the first-match selection of the active asset.
- `Plan` (`plan.dfy`):
  - the abstract SDK instructions;
  - `Play`, the POST from a decoded account to a draft or a failure;
  - `Apply`, the effect of the game's updates on an asset record;
  - lemmas about the plan and the asset life cycle.
- `Descriptor` (`descriptor.dfy`): the GET payload and its three links.

`Play` takes as parameters the values the handler gets from outside code:

- the decoded account (`None` when the key constructor rejects it);
- the assets the indexing service returns;
- the index of the CPU move (`Math.floor(Math.random() * CHOICES.length)`,
  required to be below `|CHOICES|`);
- the key `generateSigner` would produce;
- the latest blockhash;
- the authority's public key (`Config`). The handler reads it from the
  environment on every request; it is the same each time, so it becomes a
  parameter.

Some consequences of the code worth knowing:

- A player whose assets are all dead gets a freshly created asset on the next
  play (`Plan.AllDeadStartsOver`).
- A request without a move, or with an unknown one, still creates an asset
  when the player has no active one. It adds no win or death update
  (`Plan.UnknownMoveOnlyPays`, `Plan.CreateIffNoActiveAsset`).
- The descriptor's text (route.ts:41) says the NFT is burned on a loss. The
  code instead renames it `Dead` and points it at the death metadata
  (`Plan.LossKillsForGood`).

Some helpers write source lines out directly. Their contracts are carried by
the members in the table below:

- `Assets.IsActive`: the `find` filter, route.ts:98-100.
- `Game.WinGuard`: the win guard, route.ts:130-132.
- `Game.LossGuard`: the loss guard, route.ts:144-146.
- `Plan.FeeTransfer`: the fee transfer, route.ts:103-107.
- `Plan.Message`: the 400 bodies, route.ts:82 and route.ts:177.
- `Game.Move`: the nullable `choice` query parameter read as a move, route.ts:74.
- `Game.Ord`: the index of a move in `CHOICES`, route.ts:35 and route.ts:127.
- `Plan.OutcomeOf`: the CPU's draw `CHOICES[...]` fed to the guards, route.ts:127-146.

## Model

| member | source | states |
|---|---|---|
| Game.ChoiceOf | src/app/api/actions/play/route.ts:35 | a string is a move exactly when it is one of the three entries of `CHOICES`, and then it names that move |
| Game.Judge | src/app/api/actions/play/route.ts:127-156 | the guards decide Win exactly when the player's move beats the CPU's, Loss exactly when the CPU's beats the player's, and nothing exactly when the moves tie or either is missing or unknown |
| Game.GuardsDisjoint | src/app/api/actions/play/route.ts:130-146 | no (choice, cpuChoice) pair of strings satisfies both the win guard and the loss guard |
| Game.BeatsTable | src/app/api/actions/play/route.ts:130-132 | nuke beats foot, foot beats cockroach, cockroach beats nuke, and no other pair is in the relation |
| Game.BeatsIrreflexiveAsymmetricConnected | src/app/api/actions/play/route.ts:130-146 | no move beats itself, no two moves beat each other, and of two distinct moves one always beats the other |
| Game.OneWinOneLossOneTie | src/app/api/actions/play/route.ts:127-146 | for each valid move exactly one CPU draw gives a win, exactly one gives a loss, and the remaining one, the same move, gives neither |
| Game.UnknownMoveDecidesNothing | src/app/api/actions/play/route.ts:74-146 | a missing `choice` parameter or one outside `CHOICES` decides neither a win nor a loss, whatever the CPU draws |
| Assets.Inc | src/app/api/actions/play/route.ts:134-140 | the counter written back is the read count plus one, and a NaN read stays NaN |
| Assets.DeadIsNeverActive | src/app/api/actions/play/route.ts:98-100 | an asset named `Dead` never passes the selection filter |
| Assets.FirstActive | src/app/api/actions/play/route.ts:98-100 | the position found holds an active asset and every earlier asset fails the filter; nothing is found exactly when no asset passes it |
| Assets.Select | src/app/api/actions/play/route.ts:98-100 | the selected asset is in the list and is in the collection with a name other than `Dead`; none is selected exactly when no listed asset meets all three conditions |
| Assets.SelectIsFirstMatch | src/app/api/actions/play/route.ts:98-100 | any active asset preceded only by inactive ones is the one selected |
| Assets.ReplaceSelected | src/app/api/actions/play/route.ts:98-100 | rewriting the selected asset in place keeps it selected while it stays active, and it is never selected once inactive |
| Plan.ReadWins | src/app/api/actions/play/route.ts:134 | the old count is the first attribute's value whatever its key; no attributes plugin reads as NaN; an empty attribute list is an unhandled failure |
| Plan.Prepare | src/app/api/actions/play/route.ts:108-125 | with an active asset nothing is created and there are no co-signers; without one, a single Create of the new key is added, that key is the only co-signer, and the round is played on it with `Wins` = 0 |
| Plan.Settle | src/app/api/actions/play/route.ts:127-156 | a win on any asset adds exactly one attributes update of that asset, under the collection, paid by the player and authorised by the minting authority, writing the single entry `Wins` = first attribute's value + 1, or fails exactly when that read fails; a loss adds the same kind of update writing name `Dead` and the death URI; no outcome adds nothing |
| Plan.Play | src/app/api/actions/play/route.ts:78-170 | a malformed account, and only that, fails with the invalid-account error; a draft has the player as fee payer, always starts with the 0.0001 SOL transfer from the player to the authority, and holds exactly 1 + (1 if no active asset) + (1 if the round is decided) instructions |
| Plan.Apply | src/app/api/actions/play/route.ts:135-155 | an update changes only the asset it addresses: a rename changes its name and URI and keeps its attributes; an attributes update replaces its attribute list and keeps its name and URI; address, owner and update authority never change |
| Plan.CreateIffNoActiveAsset | src/app/api/actions/play/route.ts:108-125 | Create appears, immediately after the transfer, exactly when no active asset was selected, and nowhere else; the co-signer list is then the new asset's key alone, and empty otherwise |
| Plan.OutcomeDecidesUpdate | src/app/api/actions/play/route.ts:129-156 | the plan ends with the attributes update exactly on a win and with the death update exactly on a loss, and no earlier instruction is an update, so a decided round adds exactly one update and an undecided one none |
| Plan.UnknownMoveOnlyPays | src/app/api/actions/play/route.ts:74-156 | with a missing or unknown move the request still succeeds, and the plan is exactly the fee transfer followed, when no active asset exists, by the Create |
| Plan.FailsOnlyOnEmptyAttributes | src/app/api/actions/play/route.ts:134 | for a well-formed account the request fails exactly when a win is read from a selected asset whose attribute list is empty, and then as an unhandled failure |
| Plan.FreshWinWritesOne | src/app/api/actions/play/route.ts:110-141 | a player with no active asset who wins gets transfer, create and an update writing `Wins` = 1 to the new asset, co-signed by its key |
| Plan.FreshLossCreatesAndKills | src/app/api/actions/play/route.ts:110-155 | a player with no active asset who loses gets transfer, create and a death update of that same new asset in one transaction |
| Plan.ExistingAssetPlan | src/app/api/actions/play/route.ts:102-156 | with an active asset, the draft has no co-signer and is exactly the fee transfer followed by one update of that asset under the collection, paid by the player and authorised by the minting authority: on a win (attribute list not empty) `Wins` = first value + 1, on a loss name `Dead` and the death URI |
| Plan.WinIncrementsAndKeepsAsset | src/app/api/actions/play/route.ts:98-141 | a win on an existing asset whose first attribute, whatever its key, holds the count writes the single entry `Wins` = count + 1, and the updated asset is still the one selected next time |
| Plan.LossKillsForGood | src/app/api/actions/play/route.ts:98-155 | a loss on an existing asset renames it `Dead` with the death URI, after which it fails the filter and is never selected again |
| Plan.UpdatesNeverTouchDeadAssets | src/app/api/actions/play/route.ts:98-155 | every update in a plan addresses the selected live asset or the asset the same plan creates, never a dead one |
| Plan.NoUpdateAddressesDeadOwnedAsset | src/app/api/actions/play/route.ts:98-155 | when the new key is not an owned asset's address and owned assets have distinct addresses, no update in the plan addresses an owned asset named `Dead` |
| Plan.AllDeadStartsOver | src/app/api/actions/play/route.ts:98-125 | when every asset the player holds is dead, the play succeeds and creates a fresh asset co-signed by its new key |
| Descriptor.ChoiceParam | src/app/api/actions/play/route.ts:47-55 | splits a play link of the form `/api/actions/play?choice=` + value: it yields a value exactly when the link starts with that prefix, and the link is the prefix followed by the value |
| Descriptor.Actions | src/app/api/actions/play/route.ts:43-57 | there are exactly three links, and the i-th passes the i-th entry of `CHOICES` as its choice |
| Descriptor.Describe | src/app/api/actions/play/route.ts:37-59 | the GET payload carries the three move links and an icon URL formed from the request's origin |
| Descriptor.OneLinkPerMove | src/app/api/actions/play/route.ts:43-57 | each move has exactly one link, and that link's choice reads back as the same move |
| Descriptor.SameDescriptorUpToIcon | src/app/api/actions/play/route.ts:37-59 | the descriptor depends on the request only through the icon URL built from its origin |

## Left out

- Descriptor.ChoiceParam: is exact only on links of the form `/api/actions/play?choice=` + value, like the three hrefs. It does not parse a general query string as `searchParams.get("choice")` does: other parameters, a `choice` that is not first, and percent-escapes are not handled.
- HTTP plumbing is not modelled: reading the request URL and JSON body, CORS headers, `Response` construction and logging. The handler's result is `Result<Draft, Failure>`, and `Plan.Message` gives the body of the 400 response.
- Base58 decoding of the account is not modelled; it is a foreign library call. `Play` receives its outcome as an `Option`.
- Umi setup, the environment keypair, the asset-index query, `fetchCollection`, `getLatestBlockhash`, transaction building and serialisation, and `createPostResponse` are SDK or network calls. Their results are parameters. Failures of these calls are not modelled; the handler turns them into a 400 response.
- `Math.random` uses floating point. The CPU move is a parameter: an index below `|CHOICES|`.
- `generateSigner` is random. The new asset's key is a parameter. Its freshness is not modelled; `Plan.NoUpdateAddressesDeadOwnedAsset` takes it as a precondition.
- `parseInt` on an arbitrary attribute string is not modelled. A stored value is held as a natural count or NaN.
- Assets.Counter holds only natural numbers. A stored negative value is not modelled: `parseInt("-3")` reads -3, and the handler would then write -2.
- Assets.Inc: does not model JavaScript number precision. Above 2^53, `wins + 1` no longer adds one.
- `sol(0.0001)` is a floating-point amount. It is modelled as the integer 100 000 lamports.
- Encoding of the instructions, and what the on-chain asset program does when it runs them, are left out. `Plan.Apply` states only what the handler asks each update to write.
- Requests racing each other (two plays by the same player at once) are not modelled.
- Plan.Play: does not model the generic 400 response for failures raised inside the SDK or network calls, because those calls are parameters. Only the invalid-account failure and the empty-attribute-list failure are modelled.
