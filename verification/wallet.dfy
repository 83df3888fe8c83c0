/** The application shell's wallet session: the connected account, the
    `connected` flag, the address kept in local storage and the `loading`
    flag, driven by connect, disconnect and restore-on-load. The wallet
    extension is an input: each connect attempt ends in one `Outcome`. */
module Wallet {
  import opened Wrappers
  import opened JsText

  datatype WalletState = WalletState(account: Option<string>, connected: bool, stored: Option<string>, loading: bool)

  /** How a connect attempt ended: no wallet extension, an exception, or the
      account list the wallet reported (possibly absent or empty). */
  datatype Outcome = NoWallet | Threw | Answered(accounts: Option<seq<string>>)

  datatype Event = ConnectStart | ConnectFinish(outcome: Outcome) | Disconnect | Restore(walletPresent: bool)

  /** The state on first render, with whatever local storage holds. */
  function Initial(stored: Option<string>): (w: WalletState)
    ensures Consistent(w)
  {
    WalletState(None, false, stored, false)
  }

  /** `connected` mirrors `account`, and a connected account is the stored one. */
  predicate Consistent(w: WalletState) {
    && (w.connected <==> w.account.Some?)
    && (w.connected ==> w.stored == w.account)
  }

  /** The attempt yields an account. */
  predicate Connects(o: Outcome) {
    o.Answered? && o.accounts.Some? && |o.accounts.value| > 0
  }

  function Step(w: WalletState, e: Event): (r: WalletState)
    ensures Consistent(w) ==> Consistent(r)
    ensures e.ConnectStart? ==> r == w.(loading := true)
    ensures e.ConnectFinish? ==> !r.loading
    ensures e.ConnectFinish? && Connects(e.outcome) ==>
      var a := e.outcome.accounts.value[0];
      r.account == Some(a) && r.connected && r.stored == Some(a)
    ensures e.ConnectFinish? && !Connects(e.outcome) ==>
      r.account == w.account && r.connected == w.connected && r.stored == w.stored
    ensures e.Disconnect? ==> r.account.None? && !r.connected && r.stored.None? && r.loading == w.loading
    ensures e.Restore? && TruthyStr(w.stored) && e.walletPresent ==>
      r == w.(account := w.stored, connected := true)
    ensures e.Restore? && !(TruthyStr(w.stored) && e.walletPresent) ==> r == w
  {
    match e
    case ConnectStart => w.(loading := true)
    case ConnectFinish(o) =>
      if Connects(o) then
        var a := o.accounts.value[0];
        WalletState(Some(a), true, Some(a), false)
      else w.(loading := false)
    case Disconnect => w.(account := None, connected := false, stored := None)
    case Restore(present) =>
      if TruthyStr(w.stored) && present then w.(account := w.stored, connected := true) else w
  }

  function Run(w: WalletState, es: seq<Event>): WalletState
    decreases |es|
  {
    if |es| == 0 then w else Run(Step(w, es[0]), es[1..])
  }

  /** The session stays consistent over any sequence of events. */
  lemma {:induction false} RunConsistent(w: WalletState, es: seq<Event>)
    requires Consistent(w)
    ensures Consistent(Run(w, es))
    decreases |es|
  {
    if |es| > 0 {
      RunConsistent(Step(w, es[0]), es[1..]);
    }
  }

  /** From first render on, the session is consistent. */
  lemma SessionConsistent(stored: Option<string>, es: seq<Event>)
    ensures Consistent(Run(Initial(stored), es))
  {
    RunConsistent(Initial(stored), es);
  }

  /** Disconnecting twice is disconnecting once. */
  lemma DisconnectIdempotent(w: WalletState)
    ensures Step(Step(w, Disconnect), Disconnect) == Step(w, Disconnect)
  {
  }

  /** A finished connect attempt never leaves the session loading, whatever
      happened before it. */
  lemma {:induction false} FinishedConnectNotLoading(w: WalletState, es: seq<Event>)
    requires |es| > 0 && es[|es| - 1].ConnectFinish?
    ensures !Run(w, es).loading
    decreases |es|
  {
    if |es| > 1 {
      FinishedConnectNotLoading(Step(w, es[0]), es[1..]);
    }
  }
}
