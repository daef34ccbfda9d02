/** The "pay, then record" sequence of `sendMessage`: the checks on the amount, the transfer,
    the `addMessage` call and the status the buy button shows on the way, as the log of effects
    one click produces. */
module Payment {
  import opened Js
  import opened Directory
  import opened Events

  /** The amount passes both early returns: `validateAmount` accepts its string form and that
      string form is not `"0"`. */
  predicate AmountAccepted(validateAmount: string -> bool, amount: string) {
    validateAmount(amount) && amount != "0"
  }

  /** `creatorList[creatorIndex].userAddress`; None where evaluating it throws a TypeError
      (the list is `null`, or the index is past its end). */
  function Payee(creatorList: Option<seq<Creator>>, creatorIndex: nat): (r: Option<string>)
    ensures r.Some? <==> creatorList.Some? && creatorIndex < |creatorList.value|
    ensures r.Some? ==> r.value == creatorList.value[creatorIndex].userAddress
  {
    match creatorList
    case None => None
    case Some(cs) => if creatorIndex < |cs| then Some(cs[creatorIndex].userAddress) else None
  }

  /** The effects of one `sendMessage` call, given whether the amount was accepted, the payee,
      the message and amount inputs, and the outcomes of the transfer (blockhash, signing,
      confirmation) and of `addMessage`. */
  function SendMessageEffects(accepted: bool, payee: Option<string>, message: string, amount: string,
                              transfer: Outcome, record: Outcome): seq<Effect>
  {
    if !accepted then []
    else [StatusShown(SendingSol)] + TransferEffects(payee, message, amount, transfer, record)
  }

  /** From building the transfer on: a missing payee throws before any request is made. */
  function TransferEffects(payee: Option<string>, message: string, amount: string,
                           transfer: Outcome, record: Outcome): seq<Effect>
  {
    match payee
    case None => [StatusShown(Idle)]
    case Some(to) =>
      [TransferRequested(to, amount)]
        + (if transfer == Threw then [StatusShown(Idle)] else RecordEffects(to, message, amount, record))
  }

  /** From the confirmed transfer on. */
  function RecordEffects(to: string, message: string, amount: string, record: Outcome): seq<Effect> {
    [StatusShown(SendingMsg), AddMessageRequested(to, message, amount)]
      + (if record == Threw then [StatusShown(Idle)] else [StatusShown(Idle), AccountFetchRequested])
  }

  /** The click ran through to the end: transfer and message both went through. */
  predicate SagaCompleted(accepted: bool, payee: Option<string>, transfer: Outcome, record: Outcome) {
    accepted && payee.Some? && transfer == Succeeded && record == Succeeded
  }

  /** The statuses a log shows, in order. */
  function Statuses(es: seq<Effect>): seq<BuyStatus> {
    if |es| == 0 then []
    else (if es[0].StatusShown? then [es[0].status] else []) + Statuses(es[1..])
  }

  lemma {:induction false} StatusesAppend(a: seq<Effect>, b: seq<Effect>)
    ensures Statuses(a + b) == Statuses(a) + Statuses(b)
  {
    if |a| == 0 {
      assert a + b == b;
    } else {
      assert (a + b)[0] == a[0];
      assert (a + b)[1..] == a[1..] + b;
      StatusesAppend(a[1..], b);
    }
  }

  lemma StatusesOfOne(e: Effect)
    ensures Statuses([e]) == if e.StatusShown? then [e.status] else []
  {
    assert [e][1..] == [];
  }

  lemma StatusesOfTwo(e: Effect, f: Effect)
    ensures Statuses([e, f]) == Statuses([e]) + Statuses([f])
  {
    assert [e, f] == [e] + [f];
    StatusesAppend([e], [f]);
  }

  /** A rejected amount makes no call and shows no status. */
  lemma RejectedAmountDoesNothing(payee: Option<string>, message: string, amount: string,
                                  transfer: Outcome, record: Outcome)
    ensures SendMessageEffects(false, payee, message, amount, transfer, record) == []
  {
  }

  /** `addMessage` is requested only after a transfer to the same payee for the same amount was
      requested and confirmed, and at most once. */
  lemma RecordOnlyAfterConfirmedTransfer(accepted: bool, payee: Option<string>, message: string, amount: string,
                                         transfer: Outcome, record: Outcome, k: nat)
    requires k < |SendMessageEffects(accepted, payee, message, amount, transfer, record)|
    requires SendMessageEffects(accepted, payee, message, amount, transfer, record)[k].AddMessageRequested?
    ensures accepted && payee.Some? && transfer == Succeeded
    ensures k == 3
    ensures SendMessageEffects(accepted, payee, message, amount, transfer, record)[1] == TransferRequested(payee.value, amount)
    ensures SendMessageEffects(accepted, payee, message, amount, transfer, record)[k] == AddMessageRequested(payee.value, message, amount)
  {
  }

  /** From the confirmed transfer on, the status shows `'sendingMsg'`, then `''`. */
  lemma RecordStatuses(to: string, message: string, amount: string, record: Outcome)
    ensures Statuses(RecordEffects(to, message, amount, record)) == [SendingMsg, Idle]
  {
    var first := [StatusShown(SendingMsg), AddMessageRequested(to, message, amount)];
    var last := if record == Threw then [StatusShown(Idle)] else [StatusShown(Idle), AccountFetchRequested];
    StatusesAppend(first, last);
    StatusesOfTwo(StatusShown(SendingMsg), AddMessageRequested(to, message, amount));
    StatusesOfOne(StatusShown(SendingMsg));
    StatusesOfOne(AddMessageRequested(to, message, amount));
    StatusesOfOne(StatusShown(Idle));
    StatusesOfTwo(StatusShown(Idle), AccountFetchRequested);
    StatusesOfOne(AccountFetchRequested);
  }

  /** From building the transfer on: `'sendingMsg'` appears only once the transfer is confirmed,
      and `''` always ends the sequence. */
  lemma TransferStatuses(payee: Option<string>, message: string, amount: string, transfer: Outcome, record: Outcome)
    ensures Statuses(TransferEffects(payee, message, amount, transfer, record))
         == if payee.Some? && transfer == Succeeded then [SendingMsg, Idle] else [Idle]
  {
    StatusesOfOne(StatusShown(Idle));
    match payee
    case None =>
    case Some(to) =>
      var later := if transfer == Threw then [StatusShown(Idle)] else RecordEffects(to, message, amount, record);
      StatusesOfOne(TransferRequested(to, amount));
      StatusesAppend([TransferRequested(to, amount)], later);
      if transfer == Succeeded {
        RecordStatuses(to, message, amount, record);
      }
  }

  /** The status moves `'sendingSol'`, then `'sendingMsg'` once the transfer is confirmed, and
      always returns to `''` at the end of an accepted click. */
  lemma StatusOrder(accepted: bool, payee: Option<string>, message: string, amount: string,
                    transfer: Outcome, record: Outcome)
    ensures var st := Statuses(SendMessageEffects(accepted, payee, message, amount, transfer, record));
      if !accepted then st == []
      else if payee.Some? && transfer == Succeeded then st == [SendingSol, SendingMsg, Idle]
      else st == [SendingSol, Idle]
  {
    if accepted {
      StatusesOfOne(StatusShown(SendingSol));
      StatusesAppend([StatusShown(SendingSol)], TransferEffects(payee, message, amount, transfer, record));
      TransferStatuses(payee, message, amount, transfer, record);
    }
  }

  /** A failed `addMessage`, after the funds have moved, shows the same statuses as a fully
      successful click: the status indicator does not tell the user that the message was lost. */
  lemma RecordFailureLooksLikeSuccess(payee: string, message: string, amount: string)
    ensures Statuses(SendMessageEffects(true, Some(payee), message, amount, Succeeded, Threw))
         == Statuses(SendMessageEffects(true, Some(payee), message, amount, Succeeded, Succeeded))
  {
    StatusOrder(true, Some(payee), message, amount, Succeeded, Threw);
    StatusOrder(true, Some(payee), message, amount, Succeeded, Succeeded);
  }

  /** Only a completed click asks for the messages again. */
  lemma RefetchOnlyWhenCompleted(accepted: bool, payee: Option<string>, message: string, amount: string,
                                 transfer: Outcome, record: Outcome)
    ensures (AccountFetchRequested in SendMessageEffects(accepted, payee, message, amount, transfer, record))
        <==> SagaCompleted(accepted, payee, transfer, record)
  {
  }
}
