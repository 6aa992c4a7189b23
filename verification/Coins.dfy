/**
 * Transactions, outpoints and coins. A txid stands for the transaction it hashes, so two equal
 * txids are the same transaction: the collision freedom every outpoint lookup relies on.
 */
module Coins {

  datatype Option<T> = None | Some(value: T)

  /** Arriving: a deposit made to the bridge. Signed: made by the bridge, recipient at vout 0, change at vout 1. */
  datatype Tx =
    | Arriving(id: nat)
    | Signed(inputs: seq<Outpoint>, payee: string, recipientSat: nat, changeSat: nat, changeIndex: nat)

  datatype Outpoint = Outpoint(txid: Tx, vout: nat)

  datatype Utxo = Utxo(outpoint: Outpoint, amountSat: nat)
}
