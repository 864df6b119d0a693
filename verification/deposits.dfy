/** Deposit events as decoded from a source chain's bridge contract, and the
    deposit identifier derived from them. */
module Deposits {

  type ChainId = nat
  type Address = nat
  type TxHash = nat

  /** The decoded arguments of `Deposit(sender, token, amount,
      destinationChainId)`, in declaration order. */
  datatype DepositArgs = DepositArgs(sender: Address, token: Address, amount: nat, destinationChainId: nat)

  /** One decoded deposit log entry. */
  datatype DepositEvent = DepositEvent(args: DepositArgs, transactionHash: TxHash, blockNumber: nat)

  /** A decoded argument as seen through positional access (`event.args[i]`). */
  datatype ArgValue = AddressArg(address: Address) | UintArg(value: nat)

  /** Positional view of the event arguments. */
  function ArgAt(args: DepositArgs, i: nat): (v: ArgValue)
    requires i < 4
    ensures i == 0 || i == 1 <==> v.AddressArg?
  {
    if i == 0 then AddressArg(args.sender)
    else if i == 1 then AddressArg(args.token)
    else if i == 2 then UintArg(args.amount)
    else UintArg(args.destinationChainId)
  }

  /** The tuple the identifier is hashed from: source chain id, sender,
      amount and originating transaction hash, ABI-encoded in that order. */
  datatype Preimage = Preimage(chainId: ChainId, sender: Address, amount: nat, txHash: TxHash)

  /** The preimage as computed on admission, from the destructured arguments. */
  function AdmissionPreimage(chainId: ChainId, e: DepositEvent): Preimage {
    var DepositArgs(sender, _, amount, _) := e.args;
    Preimage(chainId, sender, amount, e.transactionHash)
  }

  /** The preimage as recomputed in the error handler from `args[0]` and
      `args[2]`: it is the one admission used, so a release frees exactly the
      admitted identifier. */
  function ReleasePreimage(chainId: ChainId, e: DepositEvent): (p: Preimage)
    ensures p == AdmissionPreimage(chainId, e)
  {
    Preimage(chainId, ArgAt(e.args, 0).address, ArgAt(e.args, 2).value, e.transactionHash)
  }

  /** The deposit identifier. The hash (keccak-256 of the ABI encoding) is a
      parameter: the model assumes nothing about it beyond being a function. */
  function DepositId<Id>(hash: Preimage -> Id, chainId: ChainId, e: DepositEvent): Id {
    hash(AdmissionPreimage(chainId, e))
  }

  /** The identifier depends only on (chain id, sender, amount, tx hash):
      token and destination chain never enter it, so two events that differ
      only there get the same identifier. */
  lemma IdIgnoresTokenAndDestination<Id>(hash: Preimage -> Id, chainId: ChainId, e1: DepositEvent, e2: DepositEvent)
    requires e1.args.sender == e2.args.sender && e1.args.amount == e2.args.amount
    requires e1.transactionHash == e2.transactionHash
    ensures DepositId(hash, chainId, e1) == DepositId(hash, chainId, e2)
  {
  }

  /** With a collision-free hash, two events on the same chain share an
      identifier exactly when they agree on sender, amount and tx hash. */
  lemma IdIdentifiesDeposit<Id>(hash: Preimage -> Id, chainId: ChainId, e1: DepositEvent, e2: DepositEvent)
    requires forall p, q :: hash(p) == hash(q) ==> p == q
    ensures DepositId(hash, chainId, e1) == DepositId(hash, chainId, e2) <==>
      e1.args.sender == e2.args.sender && e1.args.amount == e2.args.amount &&
      e1.transactionHash == e2.transactionHash
  {
    if DepositId(hash, chainId, e1) == DepositId(hash, chainId, e2) {
      assert AdmissionPreimage(chainId, e1) == AdmissionPreimage(chainId, e2);
    }
  }
}
