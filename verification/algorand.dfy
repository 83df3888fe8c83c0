/** The slice of the Algorand transaction format that both the marketplace
    contract and the backend touch. The address type is a parameter: the
    backend builds transactions over textual (base32) addresses, the AVM
    compares 32-byte public keys. */
module Algorand {
  import opened Wrappers
  import opened Bytes

  datatype OnComplete = NoOp | OptIn | CloseOut | ClearState | UpdateApplication | DeleteApplication

  datatype Txn<A> =
    | Payment(sender: A, receiver: A, amount: int)
    | AppCall(sender: A, appId: int, onComplete: OnComplete, args: seq<Bytes>, accounts: seq<A>)
    | AssetCreate(sender: A, total: int, decimals: int, assetName: string, unitName: string,
                  url: string, metadataHash: Option<Bytes>, defaultFrozen: bool, manager: A)

  /** Rewrites every address field, leaving amounts, arguments and order alone. */
  function MapAddresses<A, B>(t: Txn<A>, f: A -> B): (r: Txn<B>)
    ensures r.Payment? <==> t.Payment?
    ensures r.AppCall? <==> t.AppCall?
    ensures r.sender == f(t.sender)
    ensures t.Payment? ==> r.receiver == f(t.receiver) && r.amount == t.amount
    ensures t.AppCall? ==>
      && r.appId == t.appId && r.onComplete == t.onComplete && r.args == t.args
      && |r.accounts| == |t.accounts|
      && forall i :: 0 <= i < |t.accounts| ==> r.accounts[i] == f(t.accounts[i])
  {
    match t
    case Payment(s, rcv, amt) => Payment(f(s), f(rcv), amt)
    case AppCall(s, id, oc, args, accts) =>
      AppCall(f(s), id, oc, args, seq(|accts|, i requires 0 <= i < |accts| => f(accts[i])))
    case AssetCreate(s, tot, dec, an, un, url, mh, frozen, mgr) =>
      AssetCreate(f(s), tot, dec, an, un, url, mh, frozen, f(mgr))
  }

  /** Text of 7-bit characters as bytes, one byte per character. */
  function Ascii(s: string): (r: Bytes)
    requires forall i :: 0 <= i < |s| ==> s[i] as int < 0x80
    ensures |r| == |s|
    ensures forall i :: 0 <= i < |s| ==> r[i] == s[i] as int
  {
    seq(|s|, i requires 0 <= i < |s| => s[i] as int)
  }

  /** `Buffer.from` of 7-bit text agrees with the contract's byte constants. */
  lemma Utf8OfAscii(s: string)
    requires forall i :: 0 <= i < |s| ==> s[i] as int < 0x80
    ensures Utf8(s) == Ascii(s)
  {
    Utf8Ascii(s);
  }
}
