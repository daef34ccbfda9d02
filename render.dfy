/** Which panels the page renders for a given state: the conditions of `renderAuthContainer`,
    of the buy form in `renderCreatorPage`, and of the component's returned markup. */
module Render {
  import opened Js
  import opened Directory
  import opened AppState

  /** What `renderAuthContainer` returns: nothing, the one-time initialization button, or the
      "who are you" choice (with or without its Supporter button). */
  datatype AuthPanel = NoAuthPanel | InitButton | RoleChoice(supporterButton: bool)

  /** `renderAuthContainer`. `if (userIndex) return` treats a caller whose creator record is at
      index 0 like a caller with no creator record. */
  function AuthContainer(s: State): (r: AuthPanel)
    ensures r == NoAuthPanel <==> IndexTruthy(s.role.userIndex)
    ensures r == InitButton <==> !IndexTruthy(s.role.userIndex) && s.cache.creatorList.None?
    ensures r.RoleChoice? ==> r.supporterButton == !s.role.hasSupporterAcc
  {
    if IndexTruthy(s.role.userIndex) then NoAuthPanel
    else if s.cache.creatorList.None? then InitButton
    else RoleChoice(!s.role.hasSupporterAcc)
  }

  /** The buy form's condition: `creatorList[creatorIndex].userAddress.toString() !== walletAddress`.
      A `null` wallet differs from every address string. */
  function BuyFormShown(cs: seq<Creator>, creatorIndex: nat, walletAddress: Option<string>): (r: bool)
    requires creatorIndex < |cs|
    ensures r <==> walletAddress != Some(cs[creatorIndex].userAddress)
  {
    match walletAddress
    case None => true
    case Some(w) => cs[creatorIndex].userAddress != w
  }

  /** The panels the returned markup contains. */
  datatype Panels = Panels(
    connectButton: bool,
    exploreButton: bool,
    searchField: bool,
    creatorPage: bool,
    landingText: bool,
    auth: AuthPanel,
    creatorDirectory: bool,
    creatorForm: bool,
    supporterForm: bool,
    buyForm: bool)

  /** Lines 629-640 of the component's markup; `renderSearchCreatorInputField` itself renders
      nothing while `creatorList` is `null`, and the buy form is part of the creator page. */
  function Screen(s: State): Panels {
    var wallet := StringTruthy(s.walletAddress);
    var creating := s.view.creatingCreator || s.view.creatingSupporter;
    Panels(
      connectButton := !wallet,
      exploreButton := !creating && wallet,
      searchField := !s.view.viewing && !creating && wallet && s.cache.creatorList.Some?,
      creatorPage := s.view.viewing,
      landingText := !wallet,
      auth := if !s.view.exploring && !creating then AuthContainer(s) else NoAuthPanel,
      creatorDirectory := !s.view.viewing && s.view.exploring,
      creatorForm := s.view.creatingCreator && wallet,
      supporterForm := s.view.creatingSupporter && wallet,
      buyForm := s.view.viewing && s.cache.creatorList.Some? && s.view.creatorIndex < |s.cache.creatorList.value|
                 && BuyFormShown(s.cache.creatorList.value, s.view.creatorIndex, s.walletAddress))
  }

  /** Without a connected wallet the page offers the connect button and the landing text, and no
      navigation or form. */
  lemma DisconnectedShowsLanding(s: State)
    requires !StringTruthy(s.walletAddress)
    ensures var p := Screen(s);
      p.connectButton && p.landingText && !p.exploreButton && !p.searchField && !p.creatorForm && !p.supporterForm
  {
  }

  /** While an account form is open, the explore button, the search field and the role choice
      are hidden. */
  lemma FormHidesNavigation(s: State)
    requires s.view.creatingCreator || s.view.creatingSupporter
    ensures var p := Screen(s);
      !p.exploreButton && !p.searchField && p.auth == NoAuthPanel
  {
  }

  /** A creator profile on screen hides the search field and the creator directory. */
  lemma ProfileHidesDirectoryAndSearch(s: State)
    requires s.view.viewing
    ensures var p := Screen(s);
      p.creatorPage && !p.searchField && !p.creatorDirectory
  {
  }

  /** The caller whose own creator record is at index 0 is still offered the "who are you"
      choice, whereas one whose record is at a later index is not. */
  lemma OwnRecordAtIndexZeroStillOffersRoles(s: State)
    requires s.cache.creatorList.Some? && !s.view.exploring && !s.view.creatingCreator && !s.view.creatingSupporter
    ensures s.role.userIndex == Some(0) ==> Screen(s).auth == RoleChoice(!s.role.hasSupporterAcc)
    ensures s.role.userIndex.Some? && s.role.userIndex.value != 0 ==> Screen(s).auth == NoAuthPanel
  {
  }

  /** The flags are independent: a profile and an account form can be on screen together. */
  lemma ProfileAndFormTogether(s: State)
    requires s.view.viewing && s.view.creatingCreator && StringTruthy(s.walletAddress)
    ensures Screen(s).creatorPage && Screen(s).creatorForm
  {
  }

  /** A profile on screen carries the buy form exactly when the connected wallet is not the
      profile's creator. */
  lemma BuyFormOnOthersProfiles(s: State)
    requires s.view.viewing && s.cache.creatorList.Some? && s.view.creatorIndex < |s.cache.creatorList.value|
    ensures Screen(s).creatorPage
    ensures Screen(s).buyForm <==> s.walletAddress != Some(s.cache.creatorList.value[s.view.creatorIndex].userAddress)
  {
  }

  /** The caller whose last creator record is at index i is sent to their own profile by the
      role re-derivation, and that profile never offers them the buy form. */
  lemma OwnProfileHasNoBuyForm(s: State, i: nat)
    requires s.cache.creatorList.Some? && i < |s.cache.creatorList.value|
    requires s.walletAddress == Some(s.cache.creatorList.value[i].userAddress)
    requires forall j :: i < j < |s.cache.creatorList.value| ==> s.cache.creatorList.value[j].userAddress != s.walletAddress.value
    ensures Screen(CheckAccount(s)).creatorPage && !Screen(CheckAccount(s)).buyForm
  {
    CheckAccountFindsOwnProfile(s, i);
    CheckAccountFrame(s);
  }

  /** After the role re-derivation finds the caller's last creator record at index i and the
      role choice would be shown, it disappears exactly when i is not 0: a creator whose record
      is the first one keeps being asked "who are you". */
  lemma OwnRecordHidesRoleChoiceUnlessFirst(s: State, i: nat)
    requires s.cache.creatorList.Some? && i < |s.cache.creatorList.value|
    requires s.walletAddress == Some(s.cache.creatorList.value[i].userAddress)
    requires forall j :: i < j < |s.cache.creatorList.value| ==> s.cache.creatorList.value[j].userAddress != s.walletAddress.value
    ensures AuthContainer(CheckAccount(s)) == NoAuthPanel <==> i != 0
    ensures i == 0 ==> AuthContainer(CheckAccount(s)) == RoleChoice(!CheckAccount(s).role.hasSupporterAcc)
  {
    CheckAccountFindsOwnProfile(s, i);
    CheckAccountFrame(s);
  }
}
