/** The page's component state as one record, and the re-derivation of the caller's role that
    `checkIfUserHasAccount` performs on it. */
module AppState {
  import opened Js
  import opened Directory
  import opened Events

  /** Which part of the page is open, and which creator profile it shows. */
  datatype View = View(
    exploring: bool,
    viewing: bool,
    creatingCreator: bool,
    creatingSupporter: bool,
    creatorIndex: nat)

  /** What the page knows of the caller: the index of their creator record (`null` until one is
      found) and whether they have a supporter record. */
  datatype Role = Role(userIndex: Option<nat>, hasSupporterAcc: bool)

  /** The lists last fetched from the program's account; a list is `null` after a failed fetch. */
  datatype Cache = Cache(
    creatorList: Option<seq<Creator>>,
    supporterList: Option<seq<Supporter>>,
    messages: seq<Message>)

  /** The text inputs. `amountInputValue` is held as its string form (the initial number 0 is
      `"0"`). */
  datatype Inputs = Inputs(
    inputValue: string,
    nameInputValue: string,
    usernameInputValue: string,
    msgInputValue: string,
    amountInputValue: string)

  /** Every `useState` field of the page, grouped by what it is about. */
  datatype State = State(
    walletAddress: Option<string>,
    view: View,
    role: Role,
    buySolStatus: BuyStatus,
    cache: Cache,
    inputs: Inputs)

  /** The `useState` initial values. */
  const InitialState: State := State(
    None,
    View(false, false, false, false, 0),
    Role(None, false),
    Idle,
    Cache(Some([]), Some([]), []),
    Inputs("", "", "", "", "0"))

  /** The writes of the creator loop of `checkIfUserHasAccount`, given the index it matched last. */
  function RecordOwnProfile(s: State, owned: Option<nat>): State {
    match owned
    case None => s
    case Some(i) => s.(role := s.role.(userIndex := Some(i)), view := s.view.(viewing := true, creatorIndex := i))
  }

  /** The writes of its supporter loop, given whether any supporter record matched. */
  function RecordSupporter(s: State, found: bool): State {
    if found then s.(role := s.role.(hasSupporterAcc := true)) else s
  }

  /** `checkIfUserHasAccount` on snapshot s. With `creatorList` null the first `forEach` throws
      before writing anything; with `supporterList` null the second one throws after the creator
      loop's writes. */
  function CheckAccount(s: State): State {
    match s.cache.creatorList
    case None => s
    case Some(cs) =>
      var s1 := RecordOwnProfile(s, LastIndexWhere(cs, OwnedBy(s.walletAddress)));
      match s.cache.supporterList
      case None => s1
      case Some(ss) => RecordSupporter(s1, LastIndexWhere(ss, SupportedBy(s.walletAddress)).Some?)
  }

  /** The caller who owns creator record i (the last one with their address) is sent to that
      profile, and it becomes their `userIndex`. */
  lemma CheckAccountFindsOwnProfile(s: State, i: nat)
    requires s.cache.creatorList.Some? && i < |s.cache.creatorList.value|
    requires s.walletAddress == Some(s.cache.creatorList.value[i].userAddress)
    requires forall j :: i < j < |s.cache.creatorList.value| ==> s.cache.creatorList.value[j].userAddress != s.walletAddress.value
    ensures CheckAccount(s).view.viewing && CheckAccount(s).view.creatorIndex == i
    ensures CheckAccount(s).role.userIndex == Some(i)
  {
    var cs := s.cache.creatorList.value;
    assert OwnedBy(s.walletAddress)(cs[i]);
    assert LastIndexWhere(cs, OwnedBy(s.walletAddress)) == Some(i);
  }

  /** A caller without a creator record keeps their screen, `userIndex` and `creatorIndex`. */
  lemma CheckAccountWithoutCreatorRecord(s: State)
    requires s.cache.creatorList.Some?
    requires forall j :: 0 <= j < |s.cache.creatorList.value| ==> s.walletAddress != Some(s.cache.creatorList.value[j].userAddress)
    ensures CheckAccount(s).view == s.view
    ensures CheckAccount(s).role.userIndex == s.role.userIndex
  {
    var cs := s.cache.creatorList.value;
    assert LastIndexWhere(cs, OwnedBy(s.walletAddress)) == None;
  }

  /** `hasSupporterAcc` becomes true exactly when both lists are loaded and a supporter record
      has the caller's address; it is never set back to false. */
  lemma CheckAccountSupporterFlag(s: State)
    ensures CheckAccount(s).role.hasSupporterAcc <==>
      s.role.hasSupporterAcc ||
      (s.cache.creatorList.Some? && s.cache.supporterList.Some? &&
       exists j :: 0 <= j < |s.cache.supporterList.value| && s.walletAddress == Some(s.cache.supporterList.value[j].userAddress))
  {
    if s.cache.creatorList.Some? && s.cache.supporterList.Some? {
      var ss := s.cache.supporterList.value;
      var r := LastIndexWhere(ss, SupportedBy(s.walletAddress));
      if r.Some? {
        assert SupportedBy(s.walletAddress)(ss[r.value]);
      } else {
        forall j | 0 <= j < |ss| ensures s.walletAddress != Some(ss[j].userAddress) {
          assert !SupportedBy(s.walletAddress)(ss[j]);
        }
      }
    }
  }

  /** Only the role fields and the screen's profile selection change: the wallet, the open
      panels other than the profile, the lists, the inputs and the status are left as they were. */
  lemma CheckAccountFrame(s: State)
    ensures var r := CheckAccount(s);
      && r.walletAddress == s.walletAddress && r.cache == s.cache && r.inputs == s.inputs
      && r.buySolStatus == s.buySolStatus
      && r.view.(viewing := s.view.viewing, creatorIndex := s.view.creatorIndex) == s.view
  {
  }

  /** Re-deriving twice from an unchanged wallet and directory gives the state re-deriving once
      gives. */
  lemma CheckAccountIdempotent(s: State)
    ensures CheckAccount(CheckAccount(s)) == CheckAccount(s)
  {
    var r := CheckAccount(s);
    assert r.cache == s.cache && r.walletAddress == s.walletAddress;
    match s.cache.creatorList
    case None =>
    case Some(cs) =>
      var owned := LastIndexWhere(cs, OwnedBy(s.walletAddress));
      var s1 := RecordOwnProfile(s, owned);
      assert RecordOwnProfile(RecordOwnProfile(s, owned), owned) == s1;
      match s.cache.supporterList
      case None =>
        assert r == s1;
      case Some(ss) =>
        var found := LastIndexWhere(ss, SupportedBy(s.walletAddress)).Some?;
        assert r == RecordSupporter(s1, found);
        assert RecordOwnProfile(r, owned) == r;
        assert RecordSupporter(r, found) == r;
  }

  // ---------------------------------------------------------------------------
  // The screen a matched profile opens, and the three fetches of the account

  /** `setViewing(true); setCreatorIndex(index)` for the index a loop matched last, if any. */
  function ShowProfileAt(s: State, found: Option<nat>): State {
    match found
    case None => s
    case Some(i) => s.(view := s.view.(viewing := true, creatorIndex := i))
  }

  /** `getCreatorList` followed by the effect on `creatorList`: a fetched list replaces the cache
      and the caller's role is re-derived; a failed fetch sets the cache to `null`, which the
      effect's guard skips. */
  function AfterCreatorFetch(s: State, fetch: Fetch): State {
    match fetch
    case Fetched(a) => CheckAccount(s.(cache := s.cache.(creatorList := Some(a.creatorList))))
    case FetchThrew => s.(cache := s.cache.(creatorList := None))
  }

  /** `getSupporterList` followed by the effect on `supporterList`, in the same way. */
  function AfterSupporterFetch(s: State, fetch: Fetch): State {
    match fetch
    case Fetched(a) => CheckAccount(s.(cache := s.cache.(supporterList := Some(a.supporterList))))
    case FetchThrew => s.(cache := s.cache.(supporterList := None))
  }

  /** `getMessages`: a fetched list replaces the cache; a failed fetch leaves it as it was. */
  function AfterMessagesFetch(s: State, fetch: Fetch): State {
    match fetch
    case Fetched(a) => s.(cache := s.cache.(messages := a.messages))
    case FetchThrew => s
  }

  /** A failed creator fetch empties the creator cache to `null` and touches nothing else; a
      successful one stores the fetched list. */
  lemma CreatorFetchReplacesCache(s: State, fetch: Fetch)
    ensures fetch.FetchThrew? ==> AfterCreatorFetch(s, fetch) == s.(cache := s.cache.(creatorList := None))
    ensures fetch.Fetched? ==> AfterCreatorFetch(s, fetch).cache == s.cache.(creatorList := Some(fetch.account.creatorList))
  {
  }

  /** The same for the supporter cache. */
  lemma SupporterFetchReplacesCache(s: State, fetch: Fetch)
    ensures fetch.FetchThrew? ==> AfterSupporterFetch(s, fetch) == s.(cache := s.cache.(supporterList := None))
    ensures fetch.Fetched? ==> AfterSupporterFetch(s, fetch).cache == s.cache.(supporterList := Some(fetch.account.supporterList))
  {
  }

  /** A failed message fetch leaves the whole state as it was; a successful one changes only
      the message cache. */
  lemma MessagesFetchKeepsOnFailure(s: State, fetch: Fetch)
    ensures fetch.FetchThrew? ==> AfterMessagesFetch(s, fetch) == s
    ensures fetch.Fetched? ==> AfterMessagesFetch(s, fetch) == s.(cache := s.cache.(messages := fetch.account.messages))
  {
  }

  // ---------------------------------------------------------------------------
  // searchCreator

  /** `searchCreator` on snapshot s: without a truthy wallet it only asks to connect; with the
      creator cache `null` it does nothing; otherwise it clears the search input and, when the
      query occurs in the list's JSON text, opens the last profile whose username equals it. */
  function SearchResult(s: State): State {
    if !StringTruthy(s.walletAddress) then s
    else match s.cache.creatorList
      case None => s
      case Some(cs) =>
        var query := s.inputs.inputValue;
        var cleared := s.(inputs := s.inputs.(inputValue := ""));
        if SearchPretest(cs, query) then ShowProfileAt(cleared, LastIndexWhere(cs, UsernameIs(query)))
        else cleared
  }

  /** A query that equals no cached username leaves the screen and the selection as they were;
      only the search input is cleared. */
  lemma SearchWithoutExactMatchKeepsScreen(s: State)
    requires StringTruthy(s.walletAddress) && s.cache.creatorList.Some?
    requires forall i :: 0 <= i < |s.cache.creatorList.value| ==> s.cache.creatorList.value[i].username != s.inputs.inputValue
    ensures SearchResult(s) == s.(inputs := s.inputs.(inputValue := ""))
  {
    assert LastIndexWhere(s.cache.creatorList.value, UsernameIs(s.inputs.inputValue)) == None;
  }

  /** A query that passes the JSON pre-test and equals a cached username opens the profile of
      the last creator with that username. */
  lemma SearchOpensLastExactMatch(s: State, i: nat)
    requires StringTruthy(s.walletAddress) && s.cache.creatorList.Some? && i < |s.cache.creatorList.value|
    requires s.cache.creatorList.value[i].username == s.inputs.inputValue
    requires SearchPretest(s.cache.creatorList.value, s.inputs.inputValue)
    requires forall j :: i < j < |s.cache.creatorList.value| ==> s.cache.creatorList.value[j].username != s.inputs.inputValue
    ensures SearchResult(s) == s.(inputs := s.inputs.(inputValue := ""), view := s.view.(viewing := true, creatorIndex := i))
  {
    var cs := s.cache.creatorList.value;
    assert UsernameIs(s.inputs.inputValue)(cs[i]);
    assert LastIndexWhere(cs, UsernameIs(s.inputs.inputValue)) == Some(i);
  }

  /** A username written unescaped in JSON always passes the pre-test, so a query equal to it
      opens the last creator with that username. */
  lemma SearchOpensLastPlainMatch(s: State, i: nat)
    requires StringTruthy(s.walletAddress) && s.cache.creatorList.Some? && i < |s.cache.creatorList.value|
    requires s.cache.creatorList.value[i].username == s.inputs.inputValue && JsonPlain(s.inputs.inputValue)
    requires forall j :: i < j < |s.cache.creatorList.value| ==> s.cache.creatorList.value[j].username != s.inputs.inputValue
    ensures SearchResult(s) == s.(inputs := s.inputs.(inputValue := ""), view := s.view.(viewing := true, creatorIndex := i))
  {
    PretestAcceptsPlainUsername(s.cache.creatorList.value, i);
    SearchOpensLastExactMatch(s, i);
  }

  /** With a wallet and a loaded list: a query the JSON pre-test rejects only clears the search
      input; one it accepts leaves a profile on screen exactly when one was already open or some
      username equals the query. */
  lemma SearchOutcome(s: State)
    requires StringTruthy(s.walletAddress) && s.cache.creatorList.Some?
    ensures !SearchPretest(s.cache.creatorList.value, s.inputs.inputValue) ==>
              SearchResult(s) == s.(inputs := s.inputs.(inputValue := ""))
    ensures SearchPretest(s.cache.creatorList.value, s.inputs.inputValue) ==>
              (SearchResult(s).view.viewing <==>
                 s.view.viewing ||
                 exists i :: 0 <= i < |s.cache.creatorList.value| && s.cache.creatorList.value[i].username == s.inputs.inputValue)
    ensures SearchPretest(s.cache.creatorList.value, s.inputs.inputValue) &&
            (exists i :: 0 <= i < |s.cache.creatorList.value| && s.cache.creatorList.value[i].username == s.inputs.inputValue) ==>
              var k := SearchResult(s).view.creatorIndex;
              && k < |s.cache.creatorList.value| && s.cache.creatorList.value[k].username == s.inputs.inputValue
              && forall j :: k < j < |s.cache.creatorList.value| ==> s.cache.creatorList.value[j].username != s.inputs.inputValue
  {
    var cs, q := s.cache.creatorList.value, s.inputs.inputValue;
    var r := LastIndexWhere(cs, UsernameIs(q));
    if r.Some? {
      assert UsernameIs(q)(cs[r.value]);
      forall j | r.value < j < |cs| ensures cs[j].username != q {
        assert !UsernameIs(q)(cs[j]);
      }
    } else {
      forall i | 0 <= i < |cs| ensures cs[i].username != q {
        assert !UsernameIs(q)(cs[i]);
      }
    }
  }

  /** A username holding a control character can never be found: even a query equal to it is
      stopped by the JSON pre-test, and only the search input is cleared. */
  lemma SearchMissesControlCharacterUsername(s: State, i: nat)
    requires StringTruthy(s.walletAddress) && s.cache.creatorList.Some? && i < |s.cache.creatorList.value|
    requires s.cache.creatorList.value[i].username == s.inputs.inputValue && !NoControl(s.inputs.inputValue)
    ensures SearchResult(s) == s.(inputs := s.inputs.(inputValue := ""))
  {
    PretestRejectsControlCharacters(s.cache.creatorList.value, s.inputs.inputValue);
  }

  /** Searching never touches the wallet, the caches, the account-creation flags, the role
      fields or the payment status. */
  lemma SearchFrame(s: State)
    ensures var r := SearchResult(s);
      && r.walletAddress == s.walletAddress && r.role == s.role && r.cache == s.cache
      && r.buySolStatus == s.buySolStatus
      && r.view.(viewing := s.view.viewing, creatorIndex := s.view.creatorIndex) == s.view
      && r.inputs.(inputValue := s.inputs.inputValue) == s.inputs
  {
  }
}
