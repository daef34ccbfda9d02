/** What the page asks of the outside world, how the outside world answers, and the status the
    buy button shows. The wallet provider, the RPC node and the on-chain program are not modelled:
    each call they serve is an outcome the caller supplies, and each request the page makes is
    an entry in a log of effects. */
module Events {
  import opened Directory

  /** A remote call that either resolves or throws. */
  datatype Outcome = Succeeded | Threw

  /** `program.account.baseAccount.fetch(...)`: the account's lists, or an exception. */
  datatype Fetch = Fetched(account: Account) | FetchThrew

  /** `buySolStatus`: `''` (Idle), `'sendingSol'` or `'sendingMsg'`. */
  datatype BuyStatus = Idle | SendingSol | SendingMsg

  /** One observable step of an event handler, in the order the handler takes it. */
  datatype Effect =
    | StatusShown(status: BuyStatus)
    | TransferRequested(to: string, amount: string)
    | AddMessageRequested(creator: string, message: string, amount: string)
    | CreateCreatorRequested(username: string, name: string)
    | CreateSupporterRequested(name: string)
    | InitializeRequested
    | AccountFetchRequested
    | ConnectRequested
}
