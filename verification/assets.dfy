/**
 * The player's digital assets as the indexing service reports them, and the
 * handler's choice of the one asset the game is played with.
 */
module Assets {
  import opened Wrappers

  /** A base58 account or asset address. */
  type PublicKey = string

  /** The collection every game asset belongs to. */
  const COLLECTION: PublicKey := "5GFo42AMrH5PdEge5DYQZN2ih98UK8iv4PYtGk6kCiHr"

  /** The name that marks an asset as dead. */
  const DEAD_NAME: string := "Dead"

  /** An asset's update authority: none, a plain address, or a collection. */
  datatype UpdateAuthority =
    | NoAuthority
    | AddressAuthority(address: PublicKey)
    | CollectionAuthority(address: PublicKey)

  /**
   * The number the handler reads from an attribute with `parseInt`: a count,
   * restricted here to a natural number, or NaN, which `parseInt` gives when
   * there is no value or no number; NaN + 1 is written back as "NaN".
   */
  datatype Counter = Count(n: nat) | NotANumber

  /** Adding one, the way a JavaScript number does: NaN stays NaN. */
  function Inc(c: Counter): (r: Counter)
    ensures r.Count? <==> c.Count?
    ensures r.Count? ==> r.n == c.n + 1
  {
    match c
    case Count(n) => Count(n + 1)
    case NotANumber => NotANumber
  }

  /** One key/value entry of an asset's attributes plugin. */
  datatype Attribute = Attribute(key: string, value: Counter)

  /** An asset as the indexing service returns it; `attributes` is absent when the asset has no attributes plugin. */
  datatype Asset = Asset(
    address: PublicKey,
    owner: PublicKey,
    updateAuthority: UpdateAuthority,
    name: string,
    uri: string,
    attributes: Option<seq<Attribute>>)

  /** The selection filter: the asset belongs to the game's collection and is not dead. */
  predicate IsActive(a: Asset)
  {
    && a.updateAuthority.CollectionAuthority?
    && a.updateAuthority.address == COLLECTION
    && a.name != DEAD_NAME
  }

  /** A dead asset is never active, whatever else it carries. */
  lemma DeadIsNeverActive(a: Asset)
    requires a.name == DEAD_NAME
    ensures !IsActive(a)
  {
  }

  /**
   * The position of the first active asset in list order, or None exactly
   * when no asset in the list is active.
   */
  function FirstActive(assets: seq<Asset>): (r: Option<nat>)
    ensures r.Some? ==> r.value < |assets| && IsActive(assets[r.value])
    ensures r.Some? ==> forall j :: 0 <= j < r.value ==> !IsActive(assets[j])
    ensures r.None? <==> forall j :: 0 <= j < |assets| ==> !IsActive(assets[j])
  {
    if |assets| == 0 then None
    else if IsActive(assets[0]) then Some(0)
    else
      match FirstActive(assets[1..])
      case None => None
      case Some(k) => Some(k + 1)
  }

  /** The handler's `find`: the first active asset, if there is one. */
  function Select(assets: seq<Asset>): (r: Option<Asset>)
    ensures r.Some? ==> IsActive(r.value) && r.value in assets
    ensures r.None? <==> forall a :: a in assets ==> !IsActive(a)
  {
    match FirstActive(assets)
    case None => None
    case Some(i) => Some(assets[i])
  }

  /**
   * The selected asset is the first in list order: every asset before it
   * fails the filter. Any index meeting that description is the one chosen.
   */
  lemma SelectIsFirstMatch(assets: seq<Asset>, i: nat)
    requires i < |assets| && IsActive(assets[i])
    requires forall j :: 0 <= j < i ==> !IsActive(assets[j])
    ensures FirstActive(assets) == Some(i)
    ensures Select(assets) == Some(assets[i])
  {
  }

  /**
   * Rewriting the selected asset in place keeps it selected as long as it
   * stays active; once it is no longer active it is never selected again.
   */
  lemma ReplaceSelected(assets: seq<Asset>, a': Asset)
    requires FirstActive(assets).Some?
    ensures IsActive(a') ==> Select(assets[FirstActive(assets).value := a']) == Some(a')
    ensures !IsActive(a') ==> Select(assets[FirstActive(assets).value := a']) != Some(a')
  {
    var i := FirstActive(assets).value;
    var assets' := assets[i := a'];
    if IsActive(a') {
      forall j | 0 <= j < i
        ensures !IsActive(assets'[j])
      {
        assert assets'[j] == assets[j];
      }
      SelectIsFirstMatch(assets', i);
    }
  }
}
