/**
 * The wallet selector of the web client: which wallet is active as the list
 * of wallets is replaced and the user picks one, and when the change
 * callback fires. Rendering is left out; the one rendering step that moves
 * the selection (the trigger display picking the first wallet) is kept.
 */
module WalletSelector {
  import opened JsValues
  import opened WalletsService

  /** `DEFAULT_WALLET_VISUAL.color`. */
  const DefaultWalletColor: string := "#22c55e"

  /**
   * `normalizeHexColor(hex, fallback)`: the trimmed text when it matches the
   * six- or eight-digit pattern, and the fallback for anything else,
   * non-strings included.
   */
  function NormalizeHexColor(hex: JsValue, fallback: string): (r: string)
    ensures hex.Str? && IsHexColor(Trim(hex.s)) ==> r == Trim(hex.s)
    ensures !(hex.Str? && IsHexColor(Trim(hex.s))) ==> r == fallback
    ensures IsHexColor(fallback) ==> IsHexColor(r)
  {
    if !hex.Str? then fallback
    else
      var value := Trim(hex.s);
      if IsHexColor(value) then value else fallback
  }

  /** With a valid fallback, normalising a normalised colour changes nothing. */
  lemma NormalizeHexColorIdempotent(hex: JsValue, fallback: string)
    requires IsHexColor(fallback)
    ensures NormalizeHexColor(Str(NormalizeHexColor(hex, fallback)), fallback) == NormalizeHexColor(hex, fallback)
  {
    HexColorTrimmed(NormalizeHexColor(hex, fallback));
  }

  /** The ids of a wallet list, in order. */
  function IdsOf(wallets: seq<Wallet>): (ids: seq<int>)
    ensures |ids| == |wallets|
    ensures forall i :: 0 <= i < |wallets| ==> ids[i] == wallets[i].id
  {
    seq(|wallets|, i requires 0 <= i < |wallets| => wallets[i].id)
  }

  /** `wallets.some((wallet) => wallet.id === id)`. */
  predicate Listed(wallets: seq<Wallet>, id: Option<int>)
  {
    id.Some? && id.value in IdsOf(wallets)
  }

  /** JavaScript truthiness of a numeric id or `null`. */
  predicate IdTruthy(id: Option<int>)
  {
    id.Some? && id.value != 0
  }

  /** `wallets[0]?.id ?? null`. */
  function FirstId(wallets: seq<Wallet>): (id: Option<int>)
    ensures wallets == [] <==> id.None?
    ensures wallets != [] ==> Listed(wallets, id)
  {
    if wallets == [] then None else assert IdsOf(wallets)[0] == wallets[0].id; Some(wallets[0].id)
  }

  /** What `onWalletChange(walletId, previousWalletId)` is called with, if at all. */
  datatype Notification = Silent | WalletChanged(walletId: int, previousWalletId: Option<int>)

  class WalletSelectorManager {
    var wallets: seq<Wallet>
    var activeWalletId: Option<int>
    /** Whether the page has the selector's trigger element. */
    const hasTrigger: bool

    constructor (hasTrigger: bool)
      ensures wallets == [] && activeWalletId == None && this.hasTrigger == hasTrigger
    {
      wallets := [];
      activeWalletId := None;
      this.hasTrigger := hasTrigger;
    }

    /**
     * The state change inside `updateTriggerDisplay`: with a trigger on the
     * page and some wallets, an active id that is null or not listed becomes
     * the first wallet's.
     */
    method UpdateTriggerDisplay()
      modifies this
      ensures wallets == old(wallets)
      ensures hasTrigger && wallets != [] && !Listed(wallets, old(activeWalletId)) ==> activeWalletId == FirstId(wallets)
      ensures !(hasTrigger && wallets != [] && !Listed(wallets, old(activeWalletId))) ==> activeWalletId == old(activeWalletId)
      ensures hasTrigger && wallets != [] ==> Listed(wallets, activeWalletId)
    {
      if hasTrigger && |wallets| > 0 && !Listed(wallets, activeWalletId) {
        activeWalletId := FirstId(wallets);
      }
    }

    /**
     * `updateWallets(wallets, activeWalletId)`; `newWallets` is `None` when
     * the argument is not an array. An explicit id is taken as given; with
     * none, a falsy current id becomes the first wallet's; a truthy id that
     * is not listed becomes the first wallet's, or null.
     */
    method UpdateWallets(newWallets: Option<seq<Wallet>>, requested: Option<int>)
      modifies this
      ensures wallets == (if newWallets.Some? then newWallets.value else [])
      ensures requested.Some? && Listed(wallets, requested) ==> activeWalletId == requested
      ensures requested.None? && IdTruthy(old(activeWalletId)) && Listed(wallets, old(activeWalletId)) ==>
        activeWalletId == old(activeWalletId)
      ensures requested.None? && wallets != [] && !(IdTruthy(old(activeWalletId)) && Listed(wallets, old(activeWalletId))) ==>
        activeWalletId == FirstId(wallets)
      ensures requested.Some? && !Listed(wallets, requested) ==>
        activeWalletId == (if IdTruthy(requested) || (hasTrigger && wallets != []) then FirstId(wallets) else requested)
      ensures wallets != [] && (hasTrigger || requested != Some(0)) ==> Listed(wallets, activeWalletId)
      ensures wallets == [] ==>
        activeWalletId == (if requested == Some(0) || (requested.None? && old(activeWalletId) == Some(0)) then Some(0) else None)
    {
      wallets := if newWallets.Some? then newWallets.value else [];
      if requested.Some? {
        activeWalletId := requested;
      } else if !IdTruthy(activeWalletId) && |wallets| > 0 {
        activeWalletId := FirstId(wallets);
      }
      if IdTruthy(activeWalletId) && !Listed(wallets, activeWalletId) {
        activeWalletId := FirstId(wallets);
      }
      UpdateTriggerDisplay();
    }

    /**
     * `forceSelectWallet(walletId)`: an id that is not listed is ignored;
     * otherwise the id (or null) is taken, without a change notification.
     */
    method ForceSelectWallet(walletId: Option<int>)
      modifies this
      ensures wallets == old(wallets)
      ensures walletId.Some? && !Listed(wallets, walletId) ==> activeWalletId == old(activeWalletId)
      ensures Listed(wallets, walletId) ==> activeWalletId == walletId
      ensures walletId.None? ==> activeWalletId == (if hasTrigger && wallets != [] then FirstId(wallets) else None)
    {
      if walletId.Some? && !Listed(wallets, walletId) {
        return;
      }
      activeWalletId := walletId;
      UpdateTriggerDisplay();
    }

    /**
     * `selectWallet(walletId)`. Null falls back to the current wallet while it
     * is listed and truthy, else to the first (or to null with no wallets),
     * silently. A non-integer or unlisted value changes nothing. A listed
     * integer becomes active, and the callback fires exactly when it differs
     * from the previous id.
     */
    method SelectWallet(walletId: JsValue) returns (fired: Notification)
      modifies this
      ensures wallets == old(wallets)
      ensures walletId == Null && wallets == [] ==> activeWalletId == None
      ensures walletId == Null && wallets != [] ==>
        activeWalletId == (if IdTruthy(old(activeWalletId)) && Listed(wallets, old(activeWalletId)) then old(activeWalletId) else FirstId(wallets))
      ensures walletId != Null && !(walletId.Num? && IsInteger(walletId.n) && Listed(wallets, Some(IntegerValue(walletId.n)))) ==>
        activeWalletId == old(activeWalletId)
      ensures walletId.Num? && IsInteger(walletId.n) && Listed(wallets, Some(IntegerValue(walletId.n))) ==>
        activeWalletId == Some(IntegerValue(walletId.n))
      ensures fired.WalletChanged? <==>
        walletId.Num? && IsInteger(walletId.n) && Listed(wallets, Some(IntegerValue(walletId.n))) &&
        Some(IntegerValue(walletId.n)) != old(activeWalletId)
      ensures fired.WalletChanged? ==> fired == WalletChanged(IntegerValue(walletId.n), old(activeWalletId))
    {
      var previousWalletId := activeWalletId;
      var hasWallets := |wallets| > 0;
      fired := Silent;
      if walletId == Null {
        if !hasWallets {
          activeWalletId := None;
          return;
        }
        var fallbackId := if IdTruthy(previousWalletId) && Listed(wallets, previousWalletId) then previousWalletId else FirstId(wallets);
        ForceSelectWallet(fallbackId);
        return;
      }
      if !(walletId.Num? && IsInteger(walletId.n)) || !Listed(wallets, Some(IntegerValue(walletId.n))) {
        return;
      }
      var id := IntegerValue(walletId.n);
      activeWalletId := Some(id);
      UpdateTriggerDisplay();
      if Some(id) != previousWalletId {
        fired := WalletChanged(id, previousWalletId);
      }
    }
  }
}
