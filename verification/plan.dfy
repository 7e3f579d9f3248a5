/**
 * The POST handler's decision core: from the decoded player account, the
 * player's assets, the CPU's move and a freshly generated asset key, the
 * ordered instruction plan and co-signer list of the unsigned transaction.
 * SDK instructions are abstract values; their encoding is not modelled.
 */
module Plan {
  import opened Wrappers
  import opened Game
  import opened Assets

  /** 0.0001 SOL, in lamports (one SOL is 10^9 lamports). */
  const LAMPORTS_PER_SOL: nat := 1_000_000_000
  const FEE_LAMPORTS: nat := LAMPORTS_PER_SOL / 10_000

  const ASSET_NAME: string := "Nuke Foot Cockroach"
  const ASSET_URI: string := "https://death.breadheads.io/nuke-foot-cockroach.json"
  const DEATH_URI: string := "https://death.breadheads.io/ded.json"
  const WINS_KEY: string := "Wins"
  const MESSAGE: string := "Play Nuke Foot Cockroach"

  /** The public key of the minting authority, read from the environment on every request; it is the same each time, so it is a parameter. */
  datatype Config = Config(authority: PublicKey)

  /** The SDK instructions the handler adds to its transaction builder. */
  datatype Instruction =
    | TransferSol(source: PublicKey, destination: PublicKey, lamports: nat)
    | CreateAsset(asset: PublicKey, collection: PublicKey, payer: PublicKey,
                  authority: PublicKey, owner: PublicKey, name: string, uri: string)
    | UpdateAttributes(asset: PublicKey, collection: PublicKey, payer: PublicKey,
                       authority: PublicKey, attributeList: seq<Attribute>)
    | UpdateAsset(asset: PublicKey, collection: PublicKey, payer: PublicKey,
                  authority: PublicKey, name: string, uri: string)

  /** An update the game applies to an existing or just-created asset. */
  predicate IsUpdate(ins: Instruction)
  {
    ins.UpdateAttributes? || ins.UpdateAsset?
  }

  /** The unsigned transaction handed back for wallet signing, with its extra co-signers. */
  datatype Draft = Draft(
    instructions: seq<Instruction>,
    feePayer: PublicKey,
    blockhash: string,
    signers: seq<PublicKey>,
    message: string)

  /** Why a request yields a plain-text 400 instead of a draft. */
  datatype Failure = InvalidAccount | UnhandledFailure

  /** The body of the 400 response for each failure. */
  function Message(f: Failure): string
  {
    match f
    case InvalidAccount => "Invalid \"account\" provided"
    case UnhandledFailure => "An unknown error occurred"
  }

  /** The nominal fee every play pays the authority. */
  function FeeTransfer(cfg: Config, player: PublicKey): Instruction
  {
    TransferSol(player, cfg.authority, FEE_LAMPORTS)
  }

  /** The asset the round is played with, as the handler holds it after the create-or-find step. */
  datatype GameAsset = GameAsset(address: PublicKey, attributes: Option<seq<Attribute>>)

  /** What the create-or-find step contributes: instructions after the fee, co-signers, and the game asset. */
  datatype Prelude = Prelude(created: seq<Instruction>, signers: seq<PublicKey>, game: GameAsset)

  /**
   * With an active asset, nothing is created and the round is played on it.
   * Without one, a new asset under the collection is created at `freshKey`,
   * whose key must co-sign, and the round is played on a record of it that
   * starts with a single "Wins" attribute of 0.
   */
  function Prepare(cfg: Config, player: PublicKey, selected: Option<Asset>, freshKey: PublicKey): (p: Prelude)
    ensures selected.Some? ==> p.created == [] && p.signers == []
    ensures selected.Some? ==> p.game == GameAsset(selected.value.address, selected.value.attributes)
    ensures selected.None? ==> |p.created| == 1 && p.created[0].CreateAsset? && p.signers == [freshKey]
    ensures selected.None? ==> p.created[0].asset == p.game.address == freshKey
    ensures selected.None? ==> p.game.attributes == Some([Attribute(WINS_KEY, Count(0))])
  {
    match selected
    case Some(a) => Prelude([], [], GameAsset(a.address, a.attributes))
    case None =>
      Prelude(
        [CreateAsset(freshKey, COLLECTION, player, cfg.authority, player, ASSET_NAME, ASSET_URI)],
        [freshKey],
        GameAsset(freshKey, Some([Attribute(WINS_KEY, Count(0))])))
  }

  /**
   * The win counter as the handler reads it: the value of the FIRST
   * attribute, whatever its key. No attributes plugin reads as NaN; an
   * empty attribute list throws, which the handler turns into a 400.
   */
  function ReadWins(attributes: Option<seq<Attribute>>): (r: Result<Counter, Failure>)
    ensures r.Failure? <==> attributes == Some([])
    ensures r.Failure? ==> r.error == UnhandledFailure
    ensures attributes.None? ==> r == Success(NotANumber)
    ensures attributes.Some? && |attributes.value| > 0 ==> r == Success(attributes.value[0].value)
  {
    match attributes
    case None => Success(NotANumber)
    case Some(list) => if |list| == 0 then Failure(UnhandledFailure) else Success(list[0].value)
  }

  /**
   * The instructions the round's outcome adds: on a win, the attributes are
   * rewritten to the single entry Wins := old + 1; on a loss, the asset is
   * renamed "Dead" and pointed at the death metadata; otherwise nothing.
   */
  function Settle(cfg: Config, player: PublicKey, game: GameAsset, outcome: Outcome): (r: Result<seq<Instruction>, Failure>)
    ensures outcome == NoOutcome ==> r == Success([])
    ensures outcome == Loss ==>
      r == Success([UpdateAsset(game.address, COLLECTION, player, cfg.authority, DEAD_NAME, DEATH_URI)])
    ensures outcome == Win ==> (r.Failure? <==> ReadWins(game.attributes).Failure?)
    ensures outcome == Win && r.Success? ==>
      r.value == [UpdateAttributes(game.address, COLLECTION, player, cfg.authority,
                                   [Attribute(WINS_KEY, Inc(ReadWins(game.attributes).value))])]
  {
    match outcome
    case NoOutcome => Success([])
    case Loss => Success([UpdateAsset(game.address, COLLECTION, player, cfg.authority, DEAD_NAME, DEATH_URI)])
    case Win =>
      match ReadWins(game.attributes)
      case Failure(e) => Failure(e)
      case Success(wins) =>
        Success([UpdateAttributes(game.address, COLLECTION, player, cfg.authority,
                                  [Attribute(WINS_KEY, Inc(wins))])])
  }

  /** The outcome a request's inputs decide. */
  function OutcomeOf(choice: Option<string>, cpuIndex: nat): Outcome
    requires cpuIndex < |CHOICES|
  {
    Judge(choice, CHOICES[cpuIndex])
  }

  /**
   * One POST: `account` is the decoded body account (None when it is not a
   * well-formed public key), `owned` the assets the indexing service lists
   * for it, `cpuIndex` the CPU's draw from `CHOICES`, `freshKey` the key a
   * new asset would get and `blockhash` the latest block reference.
   */
  function Play(cfg: Config, choice: Option<string>, account: Option<PublicKey>, owned: seq<Asset>,
                cpuIndex: nat, freshKey: PublicKey, blockhash: string): (r: Result<Draft, Failure>)
    requires cpuIndex < |CHOICES|
    ensures account.None? <==> r == Failure(InvalidAccount)
    ensures r.Success? ==> account.Some? && r.value.feePayer == account.value
    ensures r.Success? ==> 1 <= |r.value.instructions| <= 3
    ensures r.Success? ==>
      |r.value.instructions| == 1 + (if Select(owned).None? then 1 else 0)
                                  + (if OutcomeOf(choice, cpuIndex) == NoOutcome then 0 else 1)
    ensures r.Success? ==> r.value.instructions[0] == TransferSol(account.value, cfg.authority, FEE_LAMPORTS)
    ensures r.Success? ==> r.value.message == MESSAGE && r.value.blockhash == blockhash
  {
    match account
    case None => Failure(InvalidAccount)
    case Some(player) =>
      var prelude := Prepare(cfg, player, Select(owned), freshKey);
      var outcome := OutcomeOf(choice, cpuIndex);
      match Settle(cfg, player, prelude.game, outcome)
      case Failure(e) => Failure(e)
      case Success(settled) =>
        Success(Draft([FeeTransfer(cfg, player)] + prelude.created + settled,
                      player, blockhash, prelude.signers, MESSAGE))
  }

  /** The effect of an update instruction on the asset it addresses; any other asset or instruction leaves it as it is. */
  function Apply(a: Asset, ins: Instruction): (a': Asset)
    ensures a'.address == a.address && a'.owner == a.owner && a'.updateAuthority == a.updateAuthority
    ensures !IsUpdate(ins) || ins.asset != a.address ==> a' == a
    ensures ins.UpdateAsset? && ins.asset == a.address ==> a'.name == ins.name && a'.uri == ins.uri
    ensures ins.UpdateAttributes? && ins.asset == a.address ==> a'.attributes == Some(ins.attributeList)
    ensures ins.UpdateAsset? ==> a'.attributes == a.attributes
    ensures ins.UpdateAttributes? ==> a'.name == a.name && a'.uri == a.uri
  {
    if !IsUpdate(ins) || ins.asset != a.address then a
    else if ins.UpdateAsset? then a.(name := ins.name, uri := ins.uri)
    else a.(attributes := Some(ins.attributeList))
  }

  /**
   * Create appears, right after the fee, exactly when no active asset was
   * found, and then the new asset's key is the one co-signer; otherwise the
   * co-signer list is empty and no instruction creates anything.
   */
  lemma CreateIffNoActiveAsset(cfg: Config, choice: Option<string>, player: PublicKey, owned: seq<Asset>,
                               cpuIndex: nat, freshKey: PublicKey, blockhash: string)
    requires cpuIndex < |CHOICES|
    requires Play(cfg, choice, Some(player), owned, cpuIndex, freshKey, blockhash).Success?
    ensures var d := Play(cfg, choice, Some(player), owned, cpuIndex, freshKey, blockhash).value;
      && (|d.instructions| >= 2 && d.instructions[1].CreateAsset? <==> Select(owned).None?)
      && (forall i :: 0 <= i < |d.instructions| && d.instructions[i].CreateAsset? ==> i == 1)
      && (Select(owned).None? ==>
            && d.signers == [freshKey]
            && d.instructions[1] == CreateAsset(freshKey, COLLECTION, player, cfg.authority, player, ASSET_NAME, ASSET_URI))
      && (Select(owned).Some? ==> d.signers == [])
  {
  }

  /**
   * The last instruction is a win update exactly on a win and a death
   * update exactly on a loss, and no earlier instruction is an update:
   * a decided round adds exactly one update, an undecided one none.
   */
  lemma OutcomeDecidesUpdate(cfg: Config, choice: Option<string>, player: PublicKey, owned: seq<Asset>,
                             cpuIndex: nat, freshKey: PublicKey, blockhash: string)
    requires cpuIndex < |CHOICES|
    requires Play(cfg, choice, Some(player), owned, cpuIndex, freshKey, blockhash).Success?
    ensures var ins := Play(cfg, choice, Some(player), owned, cpuIndex, freshKey, blockhash).value.instructions;
      && (ins[|ins| - 1].UpdateAttributes? <==> OutcomeOf(choice, cpuIndex) == Win)
      && (ins[|ins| - 1].UpdateAsset? <==> OutcomeOf(choice, cpuIndex) == Loss)
      && ((exists i :: 0 <= i < |ins| && IsUpdate(ins[i])) <==> OutcomeOf(choice, cpuIndex) != NoOutcome)
      && (forall i :: 0 <= i < |ins| - 1 ==> !IsUpdate(ins[i]))
  {
  }

  /**
   * A missing or unknown move never fails the request: the plan is the fee
   * transfer, plus the Create when no active asset exists, and nothing else.
   */
  lemma UnknownMoveOnlyPays(cfg: Config, choice: Option<string>, player: PublicKey, owned: seq<Asset>,
                            cpuIndex: nat, freshKey: PublicKey, blockhash: string)
    requires cpuIndex < |CHOICES|
    requires choice.None? || choice.value !in CHOICES
    ensures var r := Play(cfg, choice, Some(player), owned, cpuIndex, freshKey, blockhash);
      && r.Success?
      && r.value.instructions ==
           [FeeTransfer(cfg, player)]
           + (if Select(owned).None? then [CreateAsset(freshKey, COLLECTION, player, cfg.authority, player, ASSET_NAME, ASSET_URI)] else [])
      && (forall i :: 0 <= i < |r.value.instructions| ==> !IsUpdate(r.value.instructions[i]))
  {
  }

  /**
   * The only way an identified player's request fails is a win on an
   * asset whose attribute list is present but empty.
   */
  lemma FailsOnlyOnEmptyAttributes(cfg: Config, choice: Option<string>, player: PublicKey, owned: seq<Asset>,
                                   cpuIndex: nat, freshKey: PublicKey, blockhash: string)
    requires cpuIndex < |CHOICES|
    ensures var r := Play(cfg, choice, Some(player), owned, cpuIndex, freshKey, blockhash);
      r.Failure? <==>
        OutcomeOf(choice, cpuIndex) == Win && Select(owned).Some? && Select(owned).value.attributes == Some([])
    ensures Play(cfg, choice, Some(player), owned, cpuIndex, freshKey, blockhash).Failure? ==>
      Play(cfg, choice, Some(player), owned, cpuIndex, freshKey, blockhash).error == UnhandledFailure
  {
  }

  /** A brand-new asset that wins has its counter written as 1. */
  lemma FreshWinWritesOne(cfg: Config, choice: Option<string>, player: PublicKey, owned: seq<Asset>,
                          cpuIndex: nat, freshKey: PublicKey, blockhash: string)
    requires cpuIndex < |CHOICES|
    requires Select(owned).None? && OutcomeOf(choice, cpuIndex) == Win
    ensures Play(cfg, choice, Some(player), owned, cpuIndex, freshKey, blockhash)
      == Success(Draft([TransferSol(player, cfg.authority, FEE_LAMPORTS),
                        CreateAsset(freshKey, COLLECTION, player, cfg.authority, player, ASSET_NAME, ASSET_URI),
                        UpdateAttributes(freshKey, COLLECTION, player, cfg.authority, [Attribute(WINS_KEY, Count(1))])],
                       player, blockhash, [freshKey], MESSAGE))
  {
    var fee := TransferSol(player, cfg.authority, FEE_LAMPORTS);
    var create := CreateAsset(freshKey, COLLECTION, player, cfg.authority, player, ASSET_NAME, ASSET_URI);
    var update := UpdateAttributes(freshKey, COLLECTION, player, cfg.authority, [Attribute(WINS_KEY, Count(1))]);
    assert [fee] + [create] + [update] == [fee, create, update];
  }

  /** A brand-new asset that loses is created and killed in the same transaction. */
  lemma FreshLossCreatesAndKills(cfg: Config, choice: Option<string>, player: PublicKey, owned: seq<Asset>,
                                 cpuIndex: nat, freshKey: PublicKey, blockhash: string)
    requires cpuIndex < |CHOICES|
    requires Select(owned).None? && OutcomeOf(choice, cpuIndex) == Loss
    ensures Play(cfg, choice, Some(player), owned, cpuIndex, freshKey, blockhash)
      == Success(Draft([TransferSol(player, cfg.authority, FEE_LAMPORTS),
                        CreateAsset(freshKey, COLLECTION, player, cfg.authority, player, ASSET_NAME, ASSET_URI),
                        UpdateAsset(freshKey, COLLECTION, player, cfg.authority, DEAD_NAME, DEATH_URI)],
                       player, blockhash, [freshKey], MESSAGE))
  {
    var fee := TransferSol(player, cfg.authority, FEE_LAMPORTS);
    var create := CreateAsset(freshKey, COLLECTION, player, cfg.authority, player, ASSET_NAME, ASSET_URI);
    var death := UpdateAsset(freshKey, COLLECTION, player, cfg.authority, DEAD_NAME, DEATH_URI);
    assert [fee] + [create] + [death] == [fee, create, death];
  }

  /**
   * With an active asset, the whole draft is the fee and one update of that
   * asset, authorised by the minting authority, paid by the player, with no
   * co-signer: the Wins update on a win (when its attributes can be read),
   * the death update on a loss.
   */
  lemma ExistingAssetPlan(cfg: Config, choice: Option<string>, player: PublicKey, owned: seq<Asset>,
                          cpuIndex: nat, freshKey: PublicKey, blockhash: string)
    requires cpuIndex < |CHOICES|
    requires Select(owned).Some?
    ensures var sel := Select(owned).value;
      OutcomeOf(choice, cpuIndex) == Win && sel.attributes != Some([]) ==>
        Play(cfg, choice, Some(player), owned, cpuIndex, freshKey, blockhash)
          == Success(Draft([FeeTransfer(cfg, player),
                            UpdateAttributes(sel.address, COLLECTION, player, cfg.authority,
                                             [Attribute(WINS_KEY, Inc(ReadWins(sel.attributes).value))])],
                           player, blockhash, [], MESSAGE))
    ensures var sel := Select(owned).value;
      OutcomeOf(choice, cpuIndex) == Loss ==>
        Play(cfg, choice, Some(player), owned, cpuIndex, freshKey, blockhash)
          == Success(Draft([FeeTransfer(cfg, player),
                            UpdateAsset(sel.address, COLLECTION, player, cfg.authority, DEAD_NAME, DEATH_URI)],
                           player, blockhash, [], MESSAGE))
  {
    var sel := Select(owned).value;
    var fee := FeeTransfer(cfg, player);
    if OutcomeOf(choice, cpuIndex) == Win && sel.attributes != Some([]) {
      var win := UpdateAttributes(sel.address, COLLECTION, player, cfg.authority,
                                  [Attribute(WINS_KEY, Inc(ReadWins(sel.attributes).value))]);
      assert [fee] + [] + [win] == [fee, win];
    }
    if OutcomeOf(choice, cpuIndex) == Loss {
      var death := UpdateAsset(sel.address, COLLECTION, player, cfg.authority, DEAD_NAME, DEATH_URI);
      assert [fee] + [] + [death] == [fee, death];
    }
  }

  /**
   * A win on an existing asset rewrites its attributes to the single entry
   * Wins := (first attribute's value, whatever its key) + 1, and the asset stays the one
   * selected for the next round.
   */
  lemma WinIncrementsAndKeepsAsset(cfg: Config, choice: Option<string>, player: PublicKey, owned: seq<Asset>,
                                   cpuIndex: nat, freshKey: PublicKey, blockhash: string, wins: Counter)
    requires cpuIndex < |CHOICES|
    requires OutcomeOf(choice, cpuIndex) == Win
    requires Select(owned).Some? && Select(owned).value.attributes.Some?
    requires |Select(owned).value.attributes.value| > 0 && Select(owned).value.attributes.value[0].value == wins
    ensures var r := Play(cfg, choice, Some(player), owned, cpuIndex, freshKey, blockhash);
      && r.Success? && |r.value.instructions| == 2
      && var a' := Apply(Select(owned).value, r.value.instructions[1]);
      && a'.attributes == Some([Attribute(WINS_KEY, Inc(wins))])
      && Select(owned[FirstActive(owned).value := a']) == Some(a')
  {
    var r := Play(cfg, choice, Some(player), owned, cpuIndex, freshKey, blockhash);
    var a' := Apply(Select(owned).value, r.value.instructions[1]);
    ReplaceSelected(owned, a');
  }

  /**
   * A loss on an existing asset marks it dead with the death metadata, and
   * it is never selected again: death is terminal.
   */
  lemma LossKillsForGood(cfg: Config, choice: Option<string>, player: PublicKey, owned: seq<Asset>,
                         cpuIndex: nat, freshKey: PublicKey, blockhash: string)
    requires cpuIndex < |CHOICES|
    requires OutcomeOf(choice, cpuIndex) == Loss && Select(owned).Some?
    ensures var r := Play(cfg, choice, Some(player), owned, cpuIndex, freshKey, blockhash);
      && r.Success? && |r.value.instructions| == 2
      && var a' := Apply(Select(owned).value, r.value.instructions[1]);
      && a'.name == DEAD_NAME && a'.uri == DEATH_URI && !IsActive(a')
      && Select(owned[FirstActive(owned).value := a']) != Some(a')
  {
  }

  /**
   * Every update in a plan addresses either the selected (hence not dead)
   * asset or the one the plan itself creates: a dead asset is never touched.
   */
  lemma UpdatesNeverTouchDeadAssets(cfg: Config, choice: Option<string>, player: PublicKey, owned: seq<Asset>,
                                    cpuIndex: nat, freshKey: PublicKey, blockhash: string)
    requires cpuIndex < |CHOICES|
    requires Play(cfg, choice, Some(player), owned, cpuIndex, freshKey, blockhash).Success?
    ensures var ins := Play(cfg, choice, Some(player), owned, cpuIndex, freshKey, blockhash).value.instructions;
      forall i :: 0 <= i < |ins| && IsUpdate(ins[i]) ==>
        if Select(owned).Some? then ins[i].asset == Select(owned).value.address && Select(owned).value.name != DEAD_NAME
        else ins[i].asset == freshKey && ins[1].CreateAsset? && ins[1].asset == freshKey
  {
  }

  /**
   * With a freshly generated key that no owned asset already has, and owned
   * assets at distinct addresses, no update in a plan addresses an owned
   * asset named "Dead".
   */
  lemma NoUpdateAddressesDeadOwnedAsset(cfg: Config, choice: Option<string>, player: PublicKey, owned: seq<Asset>,
                                        cpuIndex: nat, freshKey: PublicKey, blockhash: string)
    requires cpuIndex < |CHOICES|
    requires forall j :: 0 <= j < |owned| ==> owned[j].address != freshKey
    requires forall j, k :: 0 <= j < k < |owned| ==> owned[j].address != owned[k].address
    requires Play(cfg, choice, Some(player), owned, cpuIndex, freshKey, blockhash).Success?
    ensures var ins := Play(cfg, choice, Some(player), owned, cpuIndex, freshKey, blockhash).value.instructions;
      forall i, j :: 0 <= i < |ins| && IsUpdate(ins[i]) && 0 <= j < |owned| && owned[j].name == DEAD_NAME ==>
        ins[i].asset != owned[j].address
  {
  }

  /**
   * Once every asset the player holds is dead, the next play mints a fresh
   * asset: a dead asset is never revived, but the player can start over.
   */
  lemma AllDeadStartsOver(cfg: Config, choice: Option<string>, player: PublicKey, owned: seq<Asset>,
                          cpuIndex: nat, freshKey: PublicKey, blockhash: string)
    requires cpuIndex < |CHOICES|
    requires forall j :: 0 <= j < |owned| ==> owned[j].name == DEAD_NAME
    ensures var r := Play(cfg, choice, Some(player), owned, cpuIndex, freshKey, blockhash);
      && r.Success?
      && r.value.instructions[1] == CreateAsset(freshKey, COLLECTION, player, cfg.authority, player, ASSET_NAME, ASSET_URI)
      && r.value.signers == [freshKey]
  {
  }
}
