/** Calls, events, receipts and journal entries (src/chain.rs, src/engine.rs, src/state.rs). */
module Calls {
  import opened Basics
  import opened Keys

  type Hash = string
  type Token = string

  /** Extrinsic names. Receipts store the name as text, so any other text can appear in one. */
  datatype CallName =
    | TransferKeepAliveName | TransferAllName | TransferStakeName | MoveStakeName
    | AddStakeLimitName | BurnAlphaName | RecycleAlphaName | TryAssociateHotkeyName
    | OtherName(text: string)

  /** `(pallet, event)` pairs the crate looks at. */
  datatype EventName =
    | ExtrinsicSuccess | ExtrinsicFailed | BalancesTransfer | StakeTransferred | StakeMoved
    | StakeAdded | AlphaBurned | AlphaRecycled | OtherEvent(pallet: string, event: string)

  datatype ChainCall =
    | TransferTao(dest: AccountId, amount: nat)
    | TransferAll(dest: AccountId)
    | TransferStake(destColdkey: AccountId, hotkey: AccountId, netuid: nat, alpha: nat)
    | MoveStake(fromHotkey: AccountId, toHotkey: AccountId, netuid: nat, alpha: nat)
    | AddStakeLimit(hotkey: AccountId, netuid: nat, tao: nat, limitPrice: nat, allowPartial: bool)
    | AssociateHotkey(hotkey: AccountId)
    | BurnAlpha(hotkey: AccountId, netuid: nat, alpha: nat)
    | RecycleAlpha(hotkey: AccountId, netuid: nat, alpha: nat)
  {
    function Name(): CallName {
      match this
      case TransferTao(_, _) => TransferKeepAliveName
      case TransferAll(_) => TransferAllName
      case TransferStake(_, _, _, _) => TransferStakeName
      case MoveStake(_, _, _, _) => MoveStakeName
      case AddStakeLimit(_, _, _, _, _) => AddStakeLimitName
      case AssociateHotkey(_) => TryAssociateHotkeyName
      case BurnAlpha(_, _, _) => BurnAlphaName
      case RecycleAlpha(_, _, _) => RecycleAlphaName
    }

    function ExpectedEvent(): EventName {
      match this
      case TransferTao(_, _) => BalancesTransfer
      case TransferAll(_) => BalancesTransfer
      case TransferStake(_, _, _, _) => StakeTransferred
      case MoveStake(_, _, _, _) => StakeMoved
      case AddStakeLimit(_, _, _, _, _) => StakeAdded
      case AssociateHotkey(_) => ExtrinsicSuccess
      case BurnAlpha(_, _, _) => AlphaBurned
      case RecycleAlpha(_, _, _) => AlphaRecycled
    }

    /** Rao moved by the call; 0 for `transfer_all` and `try_associate_hotkey`. */
    function Amount(): nat {
      match this
      case TransferTao(_, amount) => amount
      case TransferAll(_) => 0
      case TransferStake(_, _, _, alpha) => alpha
      case MoveStake(_, _, _, alpha) => alpha
      case AddStakeLimit(_, _, tao, _, _) => tao
      case AssociateHotkey(_) => 0
      case BurnAlpha(_, _, alpha) => alpha
      case RecycleAlpha(_, _, alpha) => alpha
    }
  }

  /** Why a journaled extrinsic was sent. */
  datatype Action =
    | Fund
    | Sweep(hotkey: Address)
    | Consolidate(hotkey: Address)
    | ReturnDust
    | BuyStake(netuid: nat, limitPrice: nat)
    | Destroy(netuid: nat, recycle: bool)

  /** `action_name`: what `reconcile_journaled` writes on a receipt it rebuilds. */
  function ActionName(a: Action): CallName {
    match a
    case Fund => TransferKeepAliveName
    case Sweep(_) => TransferStakeName
    case Consolidate(_) => MoveStakeName
    case ReturnDust => TransferAllName
    case BuyStake(_, _) => AddStakeLimitName
    case Destroy(_, recycle) => if recycle then RecycleAlphaName else BurnAlphaName
  }

  /** The action whose journal carries a call; `try_associate_hotkey` has none. */
  function ActionOf(call: ChainCall): Option<Action> {
    match call
    case TransferTao(_, _) => Some(Fund)
    case TransferStake(_, hotkey, _, _) => Some(Sweep(Ss58Of(hotkey)))
    case MoveStake(from, _, _, _) => Some(Consolidate(Ss58Of(from)))
    case TransferAll(_) => Some(ReturnDust)
    case AddStakeLimit(_, netuid, _, limitPrice, _) => Some(BuyStake(netuid, limitPrice))
    case BurnAlpha(_, netuid, _) => Some(Destroy(netuid, false))
    case RecycleAlpha(_, netuid, _) => Some(Destroy(netuid, true))
    case AssociateHotkey(_) => None
  }

  datatype TxRef = TxRef(action: CallName, txHash: Hash, blockHash: Hash, amount: nat)

  /** Extrinsic journaled before broadcast. `reservation` is absent in legacy journals. */
  datatype PendingTx = PendingTx(
    action: Action, reservation: Option<Token>, signer: Address, nonce: nat,
    txHash: Hash, birthBlock: nat, amount: nat)

  /** Signed but not yet broadcast. */
  datatype PreparedTx = PreparedTx(
    call: ChainCall, signer: Address, nonce: nat, txHash: Hash, birthBlock: nat)

  /** What one extrinsic's events amount to. */
  datatype EventSummary = EventSummary(
    names: seq<EventName>, failed: bool, stakeAdded: Option<(nat, nat)>,
    alphaDestroyed: Option<nat>, stakeMovedTao: Option<nat>, transferred: Option<nat>)
  {
    predicate Has(name: EventName) {
      name in names
    }
  }

  datatype FinalizedTx = FinalizedTx(tx: TxRef, summary: EventSummary)

  datatype PendingOutcome =
    | Wait
    | Dead
    | Included(blockHash: Hash, summary: EventSummary)
}
