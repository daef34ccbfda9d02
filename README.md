# Buy Me Sol: the page's state machine

This project models the client-side logic of the single React component of the Buy Me Sol web
app, in `src/App.js`. On the page a connected wallet can:

- browse a directory of creators;
- search for a creator by username;
- register as a creator or as a supporter;
- pay a creator in SOL, with a message that is recorded next to the payment.

Everything the page says about the directory comes from one shared on-chain account. The page
keeps a local copy of its three lists: creators, supporters and messages.

What the model covers:

- **State.** The component is the class `Page.App`. Its 17 fields are the `useState` fields.
  `App.Snapshot()` reads them as one record, `AppState.State`. That record groups the fields as
  the view flags, the caller's role, the cached lists, the text inputs, the wallet address and
  the payment status.
- **Handlers.** Each event handler is a method. A handler is a closure over the state of the
  render it came from, so it reads the values from before the event even after it has called a
  setter. Each method therefore first reads the fields it needs, then writes the new values in
  the order the source calls the setters. When a field is written twice, the second write
  stays. A write made before an `await` is rendered while the handler waits: every status
  write of `sendMessage` goes through `Page.App.SetStatus`. It returns the entry the effect log
  shows for the write, and it appends the status to a ghost history of the statuses shown
  (`App.statusHistory`). Every other method leaves that history unchanged. Each method's postcondition gives its new state as a function of
  the old snapshot. Those functions live in `AppState`, and the lemmas there and in `Payment` prove
  what the page promises about them.
- **Remote calls.** The wallet provider, the RPC node and the on-chain program are not
  modelled. Each remote call is an outcome the caller supplies: `Events.Outcome` (success or
  exception) or `Events.Fetch` (the fetched lists or an exception). A handler that talks to the
  outside world returns the log of its requests and status changes (`Events.Effect`).
- **Effects on list changes.** The effects that re-derive the caller's role whenever a list
  changes are folded into the fetch methods (`GetCreatorList`, `GetSupporterList`).
- **JavaScript behaviour.** Module `Js` holds what the logic depends on:
  - truthiness (`null`, `0` and `''` are falsy);
  - `Array.prototype.toString` as a comma join;
  - `String.prototype.includes`;
  - string escaping in `JSON.stringify`;
  - `filter`;
  - the index left behind by a `forEach` whose callback overwrites a field.
- **Rendering.** Module `Render` holds the boolean conditions that choose which panels render.

Modules follow the program's structure:

| module | file | contents |
|---|---|---|
| `Js` | js.dfy | JavaScript built-ins used by the logic |
| `Directory` | directory.dfy | the on-chain records, the username-taken test, the search pre-test, `userExists`, the message feed |
| `Events` | events.dfy | remote outcomes, the payment status, the effect log |
| `Payment` | payment.dfy | the effects of `sendMessage` and the order of its statuses |
| `AppState` | state.dfy | the state record, `checkIfUserHasAccount`, the fetches, `searchCreator` as functions |
| `Render` | render.dfy | `renderAuthContainer` and the conditions that choose each panel, the buy form among them |
| `Page` | page.dfy | class `App`: the fields and every event handler |

### Where the code differs from the intended behaviour

The model follows the code in each of these cases.

- **Unknown senders in the feed.** An unknown sender is meant to be shown by their address.
  In the code, `userExists` returns `undefined` for an unknown address, and the feed
  compares that with `!== null`. So the text "undefined" is printed instead of the address
  (src/App.js:587-591, `Directory.UnknownSenderShownAsUndefined`).
- **A lost message looks like success.** A failed `addMessage` after a transfer is meant to be
  reported distinctly, since the payment may already have gone through. The transfer outcome
  `Succeeded` means only that `confirmTransaction` resolved: the code logs its result but never
  reads `result.value.err` (src/App.js:169-172), so a transfer the chain rejected also counts as
  succeeded, and reaching `addMessage` does not by itself mean that funds moved. The code's
  catch block resets the status as it does for any other error, so the status sequence equals
  that of a completed click (`Payment.RecordFailureLooksLikeSuccess`). What tells the two paths
  apart is not the status: on the failure path the message and amount inputs stay filled
  (src/App.js:186-187 are skipped), the messages are not fetched again, and the "Message sent
  successfully" alert (src/App.js:189) never appears.
- **A failed fetch looks like an uninitialized account.** A failed creator fetch sets
  `creatorList` to `null`, and that is what makes the one-time initialization button appear
  (`Render.AuthContainer`).
- **The username-taken test.** It compares the input with the comma-joined list of all
  usernames. With two or more creators it therefore never rejects an existing username
  (`Directory.UsernameTakenMissesExistingName`). The "only one creator account" check never
  stops `sendCreator`.
- **Search.** Search first requires the query to be a substring of the list's JSON text, and
  it clears the search input in every case where a wallet and a list are present. A query that
  passes the pre-test but equals no username opens nothing and reports nothing. Search is
  meant to be an exact username match, but the pre-test compares the query with the escaped
  JSON text. A username holding a control character is therefore never found, even by a query
  equal to it (`AppState.SearchMissesControlCharacterUsername`). `"` and `\` are escaped too,
  so a username holding one of them can fail the pre-test in the same way.
- **The header ("back") button.** It returns the caller to their own profile only when their
  `userIndex` is truthy: a creator whose record is at index 0 is treated as having no record
  (src/App.js:613, 622). The same applies to `renderAuthContainer` (src/App.js:399), so a
  creator whose record is the first one keeps being asked "who are you"
  (`Render.OwnRecordHidesRoleChoiceUnlessFirst`).
- **Screens can combine.** The screens are meant to be mutually exclusive, but the view flags
  can be on together: for example a profile and an account form are rendered side by side
  (`Render.ProfileAndFormTogether`).

## Model

| member | source | states |
|---|---|---|
| `Js.JoinLongerThanEachItem` | src/App.js:215 | with two or more elements, the comma-joined text of an array is strictly longer than each element |
| `Js.JoinAround` | src/App.js:215 | every element occurs in the comma-joined text as a contiguous block |
| `Js.IncludesMiddle` | src/App.js:305 | `includes` finds every string that occurs as a contiguous block |
| `Js.JsonEscapeChar` | src/App.js:303 | `JSON.stringify` escapes a character exactly when it is `"`, `\` or a control character; any other character is written as itself |
| `Js.JsonEscape` | src/App.js:303 | a string with no character needing escape is written unchanged inside its quotes |
| `Js.JsonEscapeNoControl` | src/App.js:303 | a JSON string body never holds a control character, whatever the string held |
| `Js.IncludesNoControl` | src/App.js:305 | a text without control characters includes no query that holds one |
| `Js.Filter` | src/App.js:335 | `filter` keeps only elements of the input that satisfy the test, and never returns more elements than the input has |
| `Js.FilterAppend` | src/App.js:581-582 | filtering a concatenation is the concatenation of the filtered parts |
| `Js.FilterFirst` | src/App.js:335-338 | the filtered array is empty exactly when no element matches; otherwise its first element is the first match |
| `Js.LastIndexWhere` | src/App.js:310-315 | the index a `forEach` callback writes last is the last matching index, and no index after it matches; no index comes back exactly when nothing matches |
| `Js.LastIndexWhereStep` | src/App.js:320-326 | one more iteration of such a loop: a new match replaces the index, otherwise the old one stays |
| `Directory.UsernameTaken` | src/App.js:209-218 | definition of the username-taken test as written; its behaviour is stated by the four lemmas below |
| `Directory.UsernameTakenWithOneCreator` | src/App.js:209-218 | with exactly one creator, a username is reported as taken exactly when it equals that creator's username |
| `Directory.UsernameTakenMissesExistingName` | src/App.js:209-218 | with two or more creators, a username that already exists is never reported as taken |
| `Directory.UsernameTakenNeedsComma` | src/App.js:209-218 | with two or more creators, an input without a comma is never reported as taken |
| `Directory.NothingTakenInEmptyDirectory` | src/App.js:209-218 | with no creators, every non-empty username is accepted |
| `Directory.CreatorsJson` | src/App.js:303 | definition of `JSON.stringify(creatorList)`; stated about by `Directory.PretestAcceptsPlainUsername` and `Directory.CreatorsJsonNoControl` |
| `Directory.SearchPretest` | src/App.js:303-305 | definition of the substring pre-test; stated about by the pre-test lemmas below |
| `Directory.UsernameInCreatorJson` | src/App.js:303 | a username that JSON writes unescaped occurs verbatim in its record's JSON text |
| `Directory.PretestAcceptsPlainUsername` | src/App.js:303-305 | the JSON substring pre-test lets through every existing username that JSON writes unescaped |
| `Directory.PretestAcceptsEmptyQuery` | src/App.js:303-305 | the pre-test accepts the empty query whatever the list holds |
| `Directory.CreatorsJsonNoControl` | src/App.js:303 | the stringified creator list holds no control character |
| `Directory.PretestRejectsControlCharacters` | src/App.js:303-305 | the pre-test rejects every query holding a control character, even one equal to a username |
| `Directory.UserExists` | src/App.js:334-339 | returns the name of the first creator with the address, else the name of the first supporter with it; returns `undefined` exactly when neither list has the address |
| `Directory.MessagesFor` | src/App.js:581-582 | definition of the feed filter; stated about by `Directory.MessagesForExactly` and `Directory.MessagesForAppend` |
| `Directory.MessagesForExactly` | src/App.js:581-582 | a creator's feed lists a message exactly when the message was sent to that creator |
| `Directory.MessagesForAppend` | src/App.js:581-582 | a newly recorded message is appended at the end of its creator's feed; every other creator's feed is unchanged |
| `Directory.SenderLabel` | src/App.js:587-591 | definition of the name the feed prints; stated about by `Directory.UnknownSenderShownAsUndefined` and `Directory.CreatorNameTakesPrecedence` |
| `Directory.UnknownSenderShownAsUndefined` | src/App.js:587-591 | a sender with no creator or supporter record is labelled "undefined", never by their address |
| `Directory.CreatorNameTakesPrecedence` | src/App.js:334-339 | a sender who is both a creator and a supporter is labelled with the first matching creator's name |
| `Payment.SendMessageEffects` | src/App.js:139-197 | definition of the effect log of one `sendMessage` call; stated about by the `Payment` lemmas below, and produced by `Page.App.SendMessage` |
| `Payment.TransferEffects` | src/App.js:156-196 | definition of the log from building the transfer on; stated about by `Payment.TransferStatuses` |
| `Payment.RecordEffects` | src/App.js:175-196 | definition of the log from the confirmed transfer on; stated about by `Payment.RecordStatuses` |
| `Payment.RejectedAmountDoesNothing` | src/App.js:140-144 | a rejected amount makes no request and shows no status |
| `Payment.RecordOnlyAfterConfirmedTransfer` | src/App.js:156-184 | the transfer and the message go to `Payment.Payee`, the creator at `creatorIndex`; `addMessage` is requested only after a transfer to the same creator, for the same amount, was requested and confirmed; it is requested once, as the fourth effect |
| `Payment.RecordStatuses` | src/App.js:175-196 | from the confirmed transfer on, the status shows `'sendingMsg'`, then `''` |
| `Payment.TransferStatuses` | src/App.js:156-196 | from building the transfer on, `'sendingMsg'` appears only when a payee exists and the transfer is confirmed, and `''` always ends the sequence |
| `Payment.StatusOrder` | src/App.js:148-196 | an accepted click shows `'sendingSol'`, then `'sendingMsg'` if the transfer was confirmed, then `''`; a rejected click shows nothing |
| `Payment.RecordFailureLooksLikeSuccess` | src/App.js:186-196 | a failed `addMessage` after a confirmed transfer shows the same statuses as a completed click |
| `Payment.RefetchOnlyWhenCompleted` | src/App.js:186-192 | the messages are fetched again exactly when both the transfer and the message went through |
| `AppState.CheckAccount` | src/App.js:318-331 | definition of the role re-derivation on a snapshot; stated about by the `CheckAccount` lemmas below, and computed by `Page.App.CheckIfUserHasAccount` |
| `AppState.CheckAccountFindsOwnProfile` | src/App.js:320-326 | the caller who owns creator record i, the last with their address, gets `userIndex` and `creatorIndex` i and that profile opens |
| `AppState.CheckAccountWithoutCreatorRecord` | src/App.js:320-326 | a caller with no creator record keeps their screen, `userIndex` and `creatorIndex` |
| `AppState.CheckAccountSupporterFlag` | src/App.js:328-330 | `hasSupporterAcc` ends true exactly when it was true already, or both lists are loaded and a supporter record has the caller's address; it is never set back to false |
| `AppState.CheckAccountFrame` | src/App.js:318-331 | re-deriving the role leaves the wallet, the lists, the inputs, the status and every view flag except the opened profile as they were |
| `AppState.CheckAccountIdempotent` | src/App.js:318-331 | re-deriving twice from an unchanged wallet and directory gives the same state as re-deriving once |
| `AppState.AfterCreatorFetch` | src/App.js:111-123 | definition of a creator fetch followed by the effect at src/App.js:360-362; stated about by `AppState.CreatorFetchReplacesCache` |
| `AppState.AfterSupporterFetch` | src/App.js:251-263 | definition of a supporter fetch followed by the effect at src/App.js:364-366; stated about by `AppState.SupporterFetchReplacesCache` |
| `AppState.AfterMessagesFetch` | src/App.js:126-136 | definition of a message fetch; stated about by `AppState.MessagesFetchKeepsOnFailure` |
| `AppState.CreatorFetchReplacesCache` | src/App.js:111-123 | a failed creator fetch sets `creatorList` to `null` and changes nothing else; a successful one stores the fetched list and leaves the other lists alone |
| `AppState.SupporterFetchReplacesCache` | src/App.js:251-263 | a failed supporter fetch sets `supporterList` to `null` and changes nothing else; a successful one stores the fetched list and leaves the other lists alone |
| `AppState.MessagesFetchKeepsOnFailure` | src/App.js:126-136 | a failed message fetch leaves the whole state unchanged; a successful one replaces only the messages |
| `AppState.SearchResult` | src/App.js:294-316 | definition of `searchCreator` on a snapshot; stated about by the `Search` lemmas below, and computed by `Page.App.SearchCreator` |
| `AppState.SearchWithoutExactMatchKeepsScreen` | src/App.js:310-315 | a query equal to no username only clears the search input |
| `AppState.SearchOpensLastExactMatch` | src/App.js:294-315 | a query that passes the pre-test and equals a username opens the profile of the last creator with that username and clears the input, changing nothing else |
| `AppState.SearchOpensLastPlainMatch` | src/App.js:294-315 | a query equal to a username that JSON writes unescaped always passes the pre-test, so it opens the last creator with that username |
| `AppState.SearchOutcome` | src/App.js:299-315 | a query the pre-test rejects only clears the input; after a query it accepts, a profile is on screen exactly when one already was or some username equals the query, and when some username equals it the selected creator is the last one whose username equals the query |
| `AppState.SearchMissesControlCharacterUsername` | src/App.js:303-315 | a username holding a control character is never found: even a query equal to it only clears the search input |
| `AppState.SearchFrame` | src/App.js:294-316 | searching changes only the search input, `viewing` and `creatorIndex` |
| `Render.AuthContainer` | src/App.js:398-428 | definition of the panel `renderAuthContainer` returns; its consequences are stated by `Render.OwnRecordHidesRoleChoiceUnlessFirst`, `Render.OwnRecordAtIndexZeroStillOffersRoles` and `Render.FormHidesNavigation` |
| `Render.Screen` | src/App.js:629-640 | definition of the panels the page renders; its properties are the `Render` lemmas below |
| `Render.DisconnectedShowsLanding` | src/App.js:629-640 | without a wallet the page shows the connect button and the landing text, and no explore button, search field or account form |
| `Render.FormHidesNavigation` | src/App.js:629-640 | while an account form is open, the explore button, the search field and the role choice are hidden |
| `Render.ProfileHidesDirectoryAndSearch` | src/App.js:629-640 | a profile on screen hides the search field and the creator directory |
| `Render.OwnRecordAtIndexZeroStillOffersRoles` | src/App.js:398-399 | a caller whose own creator record is at index 0 is still offered the role choice; one whose record is at a later index is not |
| `Render.ProfileAndFormTogether` | src/App.js:634-639 | a profile and the creator form can be rendered together |
| `Render.BuyFormOnOthersProfiles` | src/App.js:602 | a profile on screen carries the buy form exactly when the connected wallet is not the profile's creator |
| `Render.OwnProfileHasNoBuyForm` | src/App.js:602 | the caller whom the role re-derivation sends to their own profile is shown that profile without the buy form |
| `Render.OwnRecordHidesRoleChoiceUnlessFirst` | src/App.js:398-399 | after the role re-derivation finds the caller's last creator record at index i, the role choice disappears exactly when i is not 0 |
| `Page.App.constructor` | src/App.js:32-50 | the fields start at the `useState` initial values, and no status has been shown yet |
| `Page.App.CheckIfUserHasAccount` | src/App.js:318-331 | the new state is the role re-derived from the old snapshot |
| `Page.App.MatchCreators` | src/App.js:320-326 | after the loop, `userIndex` and `creatorIndex` are the last creator index with the caller's address, and that profile is open; with no match nothing changes |
| `Page.App.MatchSupporters` | src/App.js:328-330 | after the loop, `hasSupporterAcc` is set exactly when some supporter record has the caller's address, and nothing else changes |
| `Page.App.GetCreatorList` | src/App.js:111-123 | a fetched creator list replaces the cache and the role is re-derived; a failed fetch sets the cache to `null` |
| `Page.App.GetSupporterList` | src/App.js:251-263 | a fetched supporter list replaces the cache and the role is re-derived; a failed fetch sets the cache to `null` |
| `Page.App.GetMessages` | src/App.js:126-136 | a fetched message list replaces the cache; a failed fetch changes nothing |
| `Page.App.ConnectedAs` | src/App.js:349-358 | the wallet address is stored; the three lists are fetched, each once, exactly when the address changed and is non-empty |
| `Page.App.CreateBaseAccount` | src/App.js:89-109 | `initialize` is requested; only if it succeeds are the three lists fetched, and a thrown `initialize` changes nothing |
| `Page.App.SetStatus` | src/App.js:148 | `setBuySolStatus`: the status field takes the new value, nothing else changes, the value is appended to the history of statuses shown, and the entry shown in the effect log is that value |
| `Page.App.SendMessage` | src/App.js:139-197 | a rejected amount changes nothing and requests nothing; a completed click clears the message and amount, resets the status and refetches the messages; any failure after the status was set only resets the status; the effects are those of `Payment.SendMessageEffects`, and the statuses in the log are exactly the statuses the field was set to during the call, in order, so the button ends showing the last of them |
| `Page.App.PayCreator` | src/App.js:156-196 | from the transfer on: success of both calls clears the inputs and refetches, and any failure only resets the status; the statuses in the log are exactly the statuses the field was set to, in order |
| `Page.App.RecordMessage` | src/App.js:175-196 | after a confirmed transfer: the effects are those of `Payment.RecordEffects`, the field is set to `'sendingMsg'` then `''`, and only a successful `addMessage` clears the inputs and refetches the messages |
| `Page.App.ClearAndRefetch` | src/App.js:186-192 | the message and amount inputs are cleared, the status returns to `''`, and the messages are fetched again |
| `Page.App.SendCreator` | src/App.js:200-248 | `createCreator` is requested exactly when the username and name are non-empty, the creator list is loaded and the username is not reported taken; only if it succeeds are the inputs cleared and the list refetched |
| `Page.App.SendSupporter` | src/App.js:266-291 | `createSupporter` is requested exactly when the name is non-empty; only if it succeeds is the name cleared and the list refetched |
| `Page.App.SearchCreator` | src/App.js:294-316 | without a wallet it only asks to connect; otherwise the new state is `AppState.SearchResult` of the old one |
| `Page.App.OpenLastMatch` | src/App.js:310-315 | after the loop, the profile of the last creator whose username equals the query is open; with no match nothing changes |
| `Page.App.Explore` | src/App.js:377-380 | the directory opens and the profile closes; nothing else changes |
| `Page.App.ViewCreator` | src/App.js:446-449 | the clicked entry's profile opens; nothing else changes |
| `Page.App.ChooseCreator` | src/App.js:415-419 | asks to connect when no wallet is connected, and opens the creator form either way |
| `Page.App.ChooseSupporter` | src/App.js:387-391 | asks to connect when no wallet is connected, and opens the supporter form either way |
| `Page.App.HeaderClick` | src/App.js:610-626 | the directory and both forms close; a profile is open afterwards exactly when a directory or a profile was open and `userIndex` is truthy, and it is then the caller's own |
| `Page.App.TypeSearch` | src/App.js:472 | the search input takes the typed text |
| `Page.App.TypeName` | src/App.js:485 | the name input, shared by both forms, takes the typed text |
| `Page.App.TypeUsername` | src/App.js:495 | the username input takes the typed text |
| `Page.App.TypeMessage` | src/App.js:540 | the message input takes the typed text |
| `Page.App.TypeAmount` | src/App.js:549 | the amount input takes the typed text |

## Left out

- Wallet detection and connection through `window.solana` (src/App.js:53-86) are browser-injected foreign calls. The model starts from their answer: `Page.App.ConnectedAs` takes the address the provider returned.
- Constructing the Anchor `Program` and `Connection` (src/App.js:89-109, 151-184) is not modelled. Neither are the `initialize`, `createCreator`, `createSupporter` and `addMessage` RPCs, blockhash fetching or transaction confirmation. Each is only a success or exception outcome. For the transfer, `Succeeded` stands for `confirmTransaction` resolving, whatever error its result reports, since the code never reads that error (src/App.js:169-172).
- The lamport conversion `1000000000 * amountInputValue` (src/App.js:160) is floating-point arithmetic on a string. The model keeps the amount as its string form; the initial number 0 becomes `"0"`.
- The `validateAmount` regular expression comes from `./Regex` (src/App.js:8), which is not part of this model. `Page.App.SendMessage` takes it as a predicate on strings.
- `alert` and `console` output, and the load listener (src/App.js:341-347), are not modelled. The alerts include the "one creator account" message at src/App.js:221-226, which is the only thing that check does.
- `useEffect` scheduling (src/App.js:349-366) is modelled only as "after this field changes, run that": `GetCreatorList` and `GetSupporterList` run the role re-derivation themselves.
- `Page.App.ConnectedAs`: the three fetches after a wallet change run concurrently in the source (src/App.js:349-358); the model applies them one after another, in source order.
- Markup, CSS and images (src/App.js:368-645) are not modelled, beyond the conditions that choose which panel renders. This includes the button and heading texts (src/App.js:412, 559-561).
- A render that throws is not modelled, and neither is React's recovery from it:
  - the creator page while `creatorList` is `null` or `creatorIndex` is past its end (src/App.js:574);
  - the creator directory while `creatorList` is `null` (src/App.js:445): after a failed fetch the Explore button still opens it, and `Render.Screen` reports `creatorDirectory` although the real render throws;
  - the feed's `userExists` while `supporterList` is `null` (src/App.js:337), which throws for a sender with no creator record. `Directory.UserExists` takes loaded lists, so it cannot represent this case.
- `AppState.CheckAccount`: the effect that runs `checkIfUserHasAccount` can be reached with `supporterList` `null`. The model keeps the creator loop's writes and stops where the supporter loop throws; what React does with the exception thrown from an effect is not modelled.
- `Directory.CreatorJson`: the key order of a serialized creator record is taken to be the declaration order userAddress, username, name. The account layout that fixes it (the program's IDL) is not part of this model. An address is serialized as its base58 string.
- `Js.JsonEscape`: lone UTF-16 surrogates, which `JSON.stringify` escapes, cannot occur in the model's strings. Those strings are sequences of Unicode scalar values.
- `Page.App.ViewCreator` requires the clicked index to lie within the loaded creator list. Those are the only entries the directory renders (src/App.js:445-446).
