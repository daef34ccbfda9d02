/** The page component: its state fields and its event handlers. A handler reads the fields as
    they were when the event fired and writes new values in the order the source calls its
    setters, so the last write to a field is the one that stays. Remote calls are given as
    outcomes; each handler that talks to the outside world returns the effects it produced. */
module Page {
  import opened Js
  import opened Directory
  import opened Events
  import opened Payment
  import opened AppState

  class App {
    var walletAddress: Option<string>
    var exploring: bool
    var inputValue: string
    var nameInputValue: string
    var usernameInputValue: string
    var creatingCreator: bool
    var creatingSupporter: bool
    var viewing: bool
    var creatorIndex: nat
    var msgInputValue: string
    var amountInputValue: string
    var buySolStatus: BuyStatus
    var creatorList: Option<seq<Creator>>
    var supporterList: Option<seq<Supporter>>
    var messages: seq<Message>
    var userIndex: Option<nat>
    var hasSupporterAcc: bool
    /** Every status the buy button has been set to, oldest first. Only `SetStatus` extends it. */
    ghost var statusHistory: seq<BuyStatus>

    /** The button shows the last status in the history, or `''` before any status was set. */
    ghost predicate StatusLogged()
      reads this
    {
      if statusHistory == [] then buySolStatus == Idle else buySolStatus == statusHistory[|statusHistory| - 1]
    }

    /** The fields as one record. */
    function Snapshot(): State
      reads this
    {
      State(walletAddress,
            View(exploring, viewing, creatingCreator, creatingSupporter, creatorIndex),
            Role(userIndex, hasSupporterAcc),
            buySolStatus,
            Cache(creatorList, supporterList, messages),
            Inputs(inputValue, nameInputValue, usernameInputValue, msgInputValue, amountInputValue))
    }

    /** The `useState` initial values. The effects that run on mount change nothing: no wallet is
        connected yet, so `checkIfUserHasAccount` matches no record. */
    constructor ()
      ensures Snapshot() == InitialState
      ensures statusHistory == [] && StatusLogged()
    {
      walletAddress, exploring, inputValue, nameInputValue, usernameInputValue := None, false, "", "", "";
      creatingCreator, creatingSupporter, viewing, creatorIndex := false, false, false, 0;
      msgInputValue, amountInputValue, buySolStatus := "", "0", Idle;
      creatorList, supporterList, messages := Some([]), Some([]), [];
      userIndex, hasSupporterAcc := None, false;
      statusHistory := [];
    }

    // -------------------------------------------------------------------------
    // Directory cache

    /** `checkIfUserHasAccount`: every creator record with the caller's address writes its index
        to `userIndex` and `creatorIndex` and opens the profile; every supporter record with it
        sets `hasSupporterAcc`. */
    method CheckIfUserHasAccount()
      modifies this
      ensures statusHistory == old(statusHistory)
      ensures Snapshot() == CheckAccount(old(Snapshot()))
    {
      var wallet, creators, supporters := walletAddress, creatorList, supporterList;
      if creators.None? {
        return;
      }
      MatchCreators(wallet, creators.value);
      if supporters.None? {
        return;
      }
      MatchSupporters(wallet, supporters.value);
    }

    /** The creator loop of `checkIfUserHasAccount`: the last record with the caller's address
        is the one whose index stays. */
    method MatchCreators(wallet: Option<string>, cs: seq<Creator>)
      modifies this
      ensures statusHistory == old(statusHistory)
      ensures Snapshot() == RecordOwnProfile(old(Snapshot()), LastIndexWhere(cs, OwnedBy(wallet)))
    {
      ghost var s := Snapshot();
      var i := 0;
      ghost var owned: Option<nat> := None;
      while i < |cs|
        invariant 0 <= i <= |cs|
        invariant statusHistory == old(statusHistory)
        invariant owned == LastIndexWhere(cs[..i], OwnedBy(wallet))
        invariant Snapshot() == RecordOwnProfile(s, owned)
      {
        LastIndexWhereStep(cs, i, OwnedBy(wallet));
        assert OwnedBy(wallet)(cs[i]) == (wallet == Some(cs[i].userAddress));
        if wallet == Some(cs[i].userAddress) {
          userIndex := Some(i);
          viewing := true;
          creatorIndex := i;
          owned := Some(i);
        }
        i := i + 1;
      }
      assert cs[..|cs|] == cs;
    }

    /** The supporter loop of `checkIfUserHasAccount`. */
    method MatchSupporters(wallet: Option<string>, ss: seq<Supporter>)
      modifies this
      ensures statusHistory == old(statusHistory)
      ensures Snapshot() == RecordSupporter(old(Snapshot()), LastIndexWhere(ss, SupportedBy(wallet)).Some?)
    {
      ghost var s := Snapshot();
      var j := 0;
      ghost var found := false;
      while j < |ss|
        invariant 0 <= j <= |ss|
        invariant statusHistory == old(statusHistory)
        invariant found == LastIndexWhere(ss[..j], SupportedBy(wallet)).Some?
        invariant Snapshot() == RecordSupporter(s, found)
      {
        LastIndexWhereStep(ss, j, SupportedBy(wallet));
        assert SupportedBy(wallet)(ss[j]) == (wallet == Some(ss[j].userAddress));
        if wallet == Some(ss[j].userAddress) {
          hasSupporterAcc := true;
          found := true;
        }
        j := j + 1;
      }
      assert ss[..|ss|] == ss;
    }

    /** `getCreatorList`, then the effect that re-derives the caller's role whenever
        `creatorList` changes to a non-null list. */
    method GetCreatorList(fetch: Fetch)
      modifies this
      ensures statusHistory == old(statusHistory)
      ensures Snapshot() == AfterCreatorFetch(old(Snapshot()), fetch)
    {
      match fetch
      case Fetched(account) =>
        creatorList := Some(account.creatorList);
        CheckIfUserHasAccount();
      case FetchThrew =>
        creatorList := None;
    }

    /** `getSupporterList`, then the effect that re-derives the caller's role whenever
        `supporterList` changes to a non-null list. */
    method GetSupporterList(fetch: Fetch)
      modifies this
      ensures statusHistory == old(statusHistory)
      ensures Snapshot() == AfterSupporterFetch(old(Snapshot()), fetch)
    {
      match fetch
      case Fetched(account) =>
        supporterList := Some(account.supporterList);
        CheckIfUserHasAccount();
      case FetchThrew =>
        supporterList := None;
    }

    /** `getMessages`: the error is caught and the cached messages stay. */
    method GetMessages(fetch: Fetch)
      modifies this
      ensures statusHistory == old(statusHistory)
      ensures Snapshot() == AfterMessagesFetch(old(Snapshot()), fetch)
    {
      if fetch.Fetched? {
        messages := fetch.account.messages;
      }
    }

    /** The wallet provider answered `connect` with `address`. The effect on `walletAddress` then
        fetches the three lists, but only when the address changed and is non-empty. */
    method ConnectedAs(address: string, creators: Fetch, supporters: Fetch, msgs: Fetch) returns (calls: seq<Effect>)
      modifies this
      ensures statusHistory == old(statusHistory)
      ensures var s := old(Snapshot()).(walletAddress := Some(address));
        var refresh := old(walletAddress) != Some(address) && address != "";
        && calls == (if refresh then [AccountFetchRequested, AccountFetchRequested, AccountFetchRequested] else [])
        && Snapshot() == if refresh then AfterMessagesFetch(AfterSupporterFetch(AfterCreatorFetch(s, creators), supporters), msgs)
                         else s
    {
      var previous := walletAddress;
      walletAddress := Some(address);
      calls := [];
      if previous != Some(address) && address != "" {
        calls := [AccountFetchRequested, AccountFetchRequested, AccountFetchRequested];
        GetCreatorList(creators);
        GetSupporterList(supporters);
        GetMessages(msgs);
      }
    }

    /** `createBaseAccount`, behind the one-time initialization button: `initialize`, then the
        three fetches; a thrown `initialize` is caught and nothing changes. */
    method CreateBaseAccount(init: Outcome, creators: Fetch, supporters: Fetch, msgs: Fetch) returns (calls: seq<Effect>)
      modifies this
      ensures statusHistory == old(statusHistory)
      ensures var s := old(Snapshot());
        && calls == [InitializeRequested] + (if init == Succeeded then [AccountFetchRequested, AccountFetchRequested, AccountFetchRequested] else [])
        && Snapshot() == if init == Succeeded then AfterMessagesFetch(AfterSupporterFetch(AfterCreatorFetch(s, creators), supporters), msgs)
                         else s
    {
      calls := [InitializeRequested];
      if init == Threw {
        return;
      }
      calls := calls + [AccountFetchRequested, AccountFetchRequested, AccountFetchRequested];
      GetCreatorList(creators);
      GetSupporterList(supporters);
      GetMessages(msgs);
    }

    // -------------------------------------------------------------------------
    // Payment

    /** `setBuySolStatus(st)`: the buy button shows `st`, and the effect log records what it
        shows. Every status entry in a handler's log comes from one of these writes. */
    method SetStatus(st: BuyStatus) returns (shown: Effect)
      modifies this
      ensures shown == StatusShown(st)
      ensures var s := old(Snapshot()); Snapshot() == s.(buySolStatus := st)
      ensures statusHistory == old(statusHistory) + [st] && StatusLogged()
    {
      buySolStatus := st;
      statusHistory := statusHistory + [st];
      shown := StatusShown(st);
    }

    /** `sendMessage`: the amount checks, then the transfer to the profile's creator, then
        `addMessage`; on success the inputs are cleared and the messages fetched again. Any
        exception after the status was set returns the status to `''` and changes nothing else. */
    method SendMessage(validateAmount: string -> bool, transfer: Outcome, record: Outcome, refetch: Fetch)
      returns (effects: seq<Effect>)
      modifies this
      ensures var s := old(Snapshot());
        var accepted := AmountAccepted(validateAmount, s.inputs.amountInputValue);
        var payee := Payee(s.cache.creatorList, s.view.creatorIndex);
        && effects == SendMessageEffects(accepted, payee, s.inputs.msgInputValue, s.inputs.amountInputValue, transfer, record)
        && Snapshot() ==
             if !accepted then s
             else if SagaCompleted(accepted, payee, transfer, record) then
               AfterMessagesFetch(s.(inputs := s.inputs.(msgInputValue := "", amountInputValue := ""), buySolStatus := Idle), refetch)
             else s.(buySolStatus := Idle)
      ensures statusHistory == old(statusHistory) + Statuses(effects)
      ensures old(StatusLogged()) ==> StatusLogged()
    {
      var amount, message, creators, index := amountInputValue, msgInputValue, creatorList, creatorIndex;
      effects := [];
      if !validateAmount(amount) {
        return;
      }
      if amount == "0" {
        return;
      }
      var sending := SetStatus(SendingSol);
      // Building the transfer reads creatorList[creatorIndex].userAddress, which throws when
      // there is no such record.
      var payee := Payee(creators, index);
      if payee.None? {
        var idle := SetStatus(Idle);
        effects := [sending, idle];
        StatusesOfTwo(sending, idle);
        StatusesOfOne(sending);
        StatusesOfOne(idle);
        return;
      }
      var rest := PayCreator(payee.value, message, amount, transfer, record, refetch);
      effects := [sending] + rest;
      StatusesAppend([sending], rest);
      StatusesOfOne(sending);
    }

    /** The part of `sendMessage` from the transfer on, with the status at `'sendingSol'`. */
    method PayCreator(to: string, message: string, amount: string, transfer: Outcome, record: Outcome, refetch: Fetch)
      returns (effects: seq<Effect>)
      modifies this
      ensures var s := old(Snapshot());
        && effects == TransferEffects(Some(to), message, amount, transfer, record)
        && Snapshot() ==
             if transfer == Succeeded && record == Succeeded then
               AfterMessagesFetch(s.(inputs := s.inputs.(msgInputValue := "", amountInputValue := ""), buySolStatus := Idle), refetch)
             else s.(buySolStatus := Idle)
      ensures statusHistory == old(statusHistory) + Statuses(effects)
      ensures StatusLogged()
    {
      var transferring := TransferRequested(to, amount);
      StatusesOfOne(transferring);
      if transfer == Threw {
        var idle := SetStatus(Idle);
        effects := [transferring, idle];
        StatusesOfTwo(transferring, idle);
        StatusesOfOne(idle);
        return;
      }
      var rest := RecordMessage(to, message, amount, record, refetch);
      effects := [transferring] + rest;
      StatusesAppend([transferring], rest);
    }

    /** The part of `sendMessage` after the transfer was confirmed: `'sendingMsg'`, then
        `addMessage`; on success the inputs are cleared and the messages fetched again. */
    method RecordMessage(to: string, message: string, amount: string, record: Outcome, refetch: Fetch)
      returns (effects: seq<Effect>)
      modifies this
      ensures var s := old(Snapshot());
        && effects == RecordEffects(to, message, amount, record)
        && Snapshot() ==
             if record == Succeeded then
               AfterMessagesFetch(s.(inputs := s.inputs.(msgInputValue := "", amountInputValue := ""), buySolStatus := Idle), refetch)
             else s.(buySolStatus := Idle)
      ensures statusHistory == old(statusHistory) + Statuses(effects)
      ensures StatusLogged()
    {
      RecordStatuses(to, message, amount, record);
      var recording := SetStatus(SendingMsg);
      var adding := AddMessageRequested(to, message, amount);
      if record == Threw {
        var idle := SetStatus(Idle);
        effects := [recording, adding, idle];
        return;
      }
      var idle := ClearAndRefetch(refetch);
      effects := [recording, adding, idle, AccountFetchRequested];
    }

    /** The end of a completed `sendMessage`: the message and amount inputs are cleared, the
        status returns to `''` and the messages are fetched again. */
    method ClearAndRefetch(refetch: Fetch) returns (shown: Effect)
      modifies this
      ensures var s := old(Snapshot());
        Snapshot() == AfterMessagesFetch(s.(inputs := s.inputs.(msgInputValue := "", amountInputValue := ""), buySolStatus := Idle), refetch)
      ensures shown == StatusShown(Idle)
      ensures statusHistory == old(statusHistory) + [Idle] && StatusLogged()
    {
      msgInputValue := "";
      amountInputValue := "";
      shown := SetStatus(Idle);
      GetMessages(refetch);
    }

    // -------------------------------------------------------------------------
    // Account creation

    /** `sendCreator`: the username and name must be non-empty and the username must not equal
        the comma-joined list of usernames; with `creatorList` null, `creatorList.map` throws and
        the handler stops. The check for an existing creator record of the caller's only returns
        from its `forEach` callback, so it never stops the handler. */
    method SendCreator(creation: Outcome, refetch: Fetch) returns (calls: seq<Effect>)
      modifies this
      ensures statusHistory == old(statusHistory)
      ensures var s := old(Snapshot());
        var username, name := s.inputs.usernameInputValue, s.inputs.nameInputValue;
        var proceeds := username != "" && name != "" && s.cache.creatorList.Some?
                        && !UsernameTaken(username, s.cache.creatorList.value);
        && calls == (if !proceeds then []
                     else [CreateCreatorRequested(username, name)]
                            + if creation == Succeeded then [AccountFetchRequested] else [])
        && Snapshot() == if proceeds && creation == Succeeded
                         then AfterCreatorFetch(s.(inputs := s.inputs.(usernameInputValue := "", nameInputValue := "")), refetch)
                         else s
    {
      var username, name, creators := usernameInputValue, nameInputValue, creatorList;
      calls := [];
      if |username| == 0 {
        return;
      }
      if |name| == 0 {
        return;
      }
      if creators.None? {
        return;
      }
      if UsernameTaken(username, creators.value) {
        return;
      }
      calls := [CreateCreatorRequested(username, name)];
      if creation == Threw {
        return;
      }
      usernameInputValue := "";
      nameInputValue := "";
      calls := calls + [AccountFetchRequested];
      GetCreatorList(refetch);
    }

    /** `sendSupporter`: the name must be non-empty; there is no check against existing
        supporter records. */
    method SendSupporter(creation: Outcome, refetch: Fetch) returns (calls: seq<Effect>)
      modifies this
      ensures statusHistory == old(statusHistory)
      ensures var s := old(Snapshot());
        var proceeds := s.inputs.nameInputValue != "";
        && calls == (if !proceeds then []
                     else [CreateSupporterRequested(s.inputs.nameInputValue)]
                            + if creation == Succeeded then [AccountFetchRequested] else [])
        && Snapshot() == if proceeds && creation == Succeeded
                         then AfterSupporterFetch(s.(inputs := s.inputs.(nameInputValue := "")), refetch)
                         else s
    {
      var name := nameInputValue;
      calls := [];
      if |name| == 0 {
        return;
      }
      calls := [CreateSupporterRequested(name)];
      if creation == Threw {
        return;
      }
      nameInputValue := "";
      calls := calls + [AccountFetchRequested];
      GetSupporterList(refetch);
    }

    // -------------------------------------------------------------------------
    // Search and navigation

    /** `searchCreator`: without a wallet it only asks to connect; with the creator cache `null`
        it does nothing; otherwise it clears the search input and, if the query occurs in the
        list's JSON text, opens the profile of the last creator whose username equals the query
        (nothing opens when none does). */
    method SearchCreator() returns (calls: seq<Effect>)
      modifies this
      ensures statusHistory == old(statusHistory)
      ensures var s := old(Snapshot());
        && calls == (if StringTruthy(s.walletAddress) then [] else [ConnectRequested])
        && Snapshot() == SearchResult(s)
    {
      var wallet, creators, query := walletAddress, creatorList, inputValue;
      if !StringTruthy(wallet) {
        calls := [ConnectRequested];
        return;
      }
      calls := [];
      if creators.None? {
        return;
      }
      inputValue := "";
      var cs := creators.value;
      if !Includes(CreatorsJson(cs), query) {
        return;
      }
      OpenLastMatch(cs, query);
    }

    /** The loop of `searchCreator`: every creator whose username equals the query opens its
        profile, so the last one stays on screen. */
    method OpenLastMatch(cs: seq<Creator>, query: string)
      modifies this
      ensures statusHistory == old(statusHistory)
      ensures Snapshot() == ShowProfileAt(old(Snapshot()), LastIndexWhere(cs, UsernameIs(query)))
    {
      ghost var s := Snapshot();
      var i := 0;
      ghost var found: Option<nat> := None;
      while i < |cs|
        invariant 0 <= i <= |cs|
        invariant statusHistory == old(statusHistory)
        invariant found == LastIndexWhere(cs[..i], UsernameIs(query))
        invariant Snapshot() == ShowProfileAt(s, found)
      {
        LastIndexWhereStep(cs, i, UsernameIs(query));
        assert UsernameIs(query)(cs[i]) == (cs[i].username == query);
        if query == cs[i].username {
          viewing := true;
          creatorIndex := i;
          found := Some(i);
        }
        i := i + 1;
      }
      assert cs[..|cs|] == cs;
    }

    /** The "Explore Creators" button: the directory replaces the profile. */
    method Explore()
      modifies this
      ensures statusHistory == old(statusHistory)
      ensures Snapshot() == var s := old(Snapshot()); s.(view := s.view.(exploring := true, viewing := false))
    {
      exploring := true;
      viewing := false;
    }

    /** A click on entry `index` of the creator directory opens that profile. */
    method ViewCreator(index: nat)
      requires creatorList.Some? && index < |creatorList.value|
      modifies this
      ensures statusHistory == old(statusHistory)
      ensures Snapshot() == var s := old(Snapshot()); s.(view := s.view.(viewing := true, creatorIndex := index))
    {
      viewing := true;
      creatorIndex := index;
    }

    /** The "Creator" button of the role choice: asks to connect when no wallet is connected and
        opens the creator form either way. */
    method ChooseCreator() returns (calls: seq<Effect>)
      modifies this
      ensures statusHistory == old(statusHistory)
      ensures calls == if StringTruthy(old(walletAddress)) then [] else [ConnectRequested]
      ensures Snapshot() == var s := old(Snapshot()); s.(view := s.view.(creatingCreator := true))
    {
      calls := if StringTruthy(walletAddress) then [] else [ConnectRequested];
      creatingCreator := true;
    }

    /** The "Supporter" button of the role choice, in the same way for the supporter form. */
    method ChooseSupporter() returns (calls: seq<Effect>)
      modifies this
      ensures statusHistory == old(statusHistory)
      ensures calls == if StringTruthy(old(walletAddress)) then [] else [ConnectRequested]
      ensures Snapshot() == var s := old(Snapshot()); s.(view := s.view.(creatingSupporter := true))
    {
      calls := if StringTruthy(walletAddress) then [] else [ConnectRequested];
      creatingSupporter := true;
    }

    /** The header's "Buy Me Sol" button. It closes the directory and both forms; the caller ends
        on a profile exactly when a directory or a profile was open and `userIndex` is truthy, and
        that profile is then their own. */
    method HeaderClick()
      modifies this
      ensures statusHistory == old(statusHistory)
      ensures var s := old(Snapshot());
        var back := (s.view.exploring || s.view.viewing) && IndexTruthy(s.role.userIndex);
        Snapshot() == s.(view := View(false, back, false, false,
                                      if back then s.role.userIndex.value else s.view.creatorIndex))
    {
      var wasExploring, wasViewing, wasCreatingCreator, wasCreatingSupporter, owner :=
        exploring, viewing, creatingCreator, creatingSupporter, userIndex;
      if wasExploring {
        if IndexTruthy(owner) {
          creatorIndex := owner.value;
          viewing := true;
        }
        exploring := false;
      }
      if wasCreatingCreator {
        creatingCreator := false;
      }
      if wasCreatingSupporter {
        creatingSupporter := false;
      }
      if wasViewing {
        if IndexTruthy(owner) {
          creatorIndex := owner.value;
        } else {
          viewing := false;
        }
      }
    }

    // -------------------------------------------------------------------------
    // Text inputs

    /** The search field's `onChange`. */
    method TypeSearch(text: string)
      modifies this
      ensures statusHistory == old(statusHistory)
      ensures Snapshot() == var s := old(Snapshot()); s.(inputs := s.inputs.(inputValue := text))
    {
      inputValue := text;
    }

    /** The name field's `onChange` (both forms share it). */
    method TypeName(text: string)
      modifies this
      ensures statusHistory == old(statusHistory)
      ensures Snapshot() == var s := old(Snapshot()); s.(inputs := s.inputs.(nameInputValue := text))
    {
      nameInputValue := text;
    }

    /** The username field's `onChange`. */
    method TypeUsername(text: string)
      modifies this
      ensures statusHistory == old(statusHistory)
      ensures Snapshot() == var s := old(Snapshot()); s.(inputs := s.inputs.(usernameInputValue := text))
    {
      usernameInputValue := text;
    }

    /** The message field's `onChange`. */
    method TypeMessage(text: string)
      modifies this
      ensures statusHistory == old(statusHistory)
      ensures Snapshot() == var s := old(Snapshot()); s.(inputs := s.inputs.(msgInputValue := text))
    {
      msgInputValue := text;
    }

    /** The amount field's `onChange`. */
    method TypeAmount(text: string)
      modifies this
      ensures statusHistory == old(statusHistory)
      ensures Snapshot() == var s := old(Snapshot()); s.(inputs := s.inputs.(amountInputValue := text))
    {
      amountInputValue := text;
    }
  }
}
