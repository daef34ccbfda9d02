/** The records the page reads from the shared on-chain account, and the lookups the page
    performs on its cached copy of them: the username-taken test of `sendCreator`, the
    `JSON.stringify` pre-test of `searchCreator`, `userExists`, and the message feed. */
module Directory {
  import opened Js

  datatype Creator = Creator(userAddress: string, username: string, name: string)
  datatype Supporter = Supporter(userAddress: string, name: string)
  /** `solAmount` is the amount as the string `addMessage` was given. */
  datatype Message = Message(creatorAddress: string, supporterAddress: string, message: string, solAmount: string)

  /** The three lists of one fetch of the shared account. */
  datatype Account = Account(creatorList: seq<Creator>, supporterList: seq<Supporter>, messages: seq<Message>)

  // ---------------------------------------------------------------------------
  // The element tests the page's callbacks use

  /** `inputValue === item.username.toString()` */
  function UsernameIs(q: string): Creator -> bool {
    (c: Creator) => c.username == q
  }

  /** `walletAddress === item.userAddress.toString()`, false while no wallet is connected. */
  function OwnedBy(wallet: Option<string>): Creator -> bool {
    (c: Creator) => wallet == Some(c.userAddress)
  }

  /** The same test on a supporter record. */
  function SupportedBy(wallet: Option<string>): Supporter -> bool {
    (s: Supporter) => wallet == Some(s.userAddress)
  }

  /** `c?.userAddress?.toString() === userAddress?.toString()` in `userExists`. */
  function CreatorAt(a: string): Creator -> bool {
    (c: Creator) => c.userAddress == a
  }

  /** The same test on a supporter record. */
  function SupporterAt(a: string): Supporter -> bool {
    (s: Supporter) => s.userAddress == a
  }

  /** The feed's test: the message was sent to creator `a`. */
  function SentTo(a: string): Message -> bool {
    (m: Message) => m.creatorAddress == a
  }

  // ---------------------------------------------------------------------------
  // sendCreator's username-taken test

  /** `creatorList.map(item => item.username.toString())`; both branches of the callback return
      the username. */
  function Usernames(cs: seq<Creator>): seq<string> {
    seq(|cs|, i requires 0 <= i < |cs| => cs[i].username)
  }

  /** A username counts as taken when it equals the comma-joined text of every username. */
  predicate UsernameTaken(input: string, cs: seq<Creator>) {
    input == Join(Usernames(cs))
  }

  /** With exactly one creator the test is the intended one. */
  lemma UsernameTakenWithOneCreator(input: string, cs: seq<Creator>)
    requires |cs| == 1
    ensures UsernameTaken(input, cs) <==> input == cs[0].username
  {
    assert Usernames(cs) == [cs[0].username];
  }

  /** With two or more creators, a username that already exists is never reported as taken. */
  lemma UsernameTakenMissesExistingName(input: string, cs: seq<Creator>, i: nat)
    requires 2 <= |cs| && i < |cs| && cs[i].username == input
    ensures !UsernameTaken(input, cs)
  {
    JoinLongerThanEachItem(Usernames(cs), i);
  }

  /** With two or more creators, a comma-free input is never reported as taken. */
  lemma {:induction false} UsernameTakenNeedsComma(input: string, cs: seq<Creator>)
    requires 2 <= |cs| && ',' !in input
    ensures !UsernameTaken(input, cs)
  {
    var names := Usernames(cs);
    assert Join(names) == names[0] + "," + Join(names[1..]);
    assert Join(names)[|names[0]|] == ',';
  }

  /** A non-empty input is never taken while the directory has no creators. */
  lemma NothingTakenInEmptyDirectory(input: string)
    requires input != ""
    ensures !UsernameTaken(input, [])
  {
  }

  // ---------------------------------------------------------------------------
  // searchCreator's JSON.stringify pre-test

  /** `JSON.stringify` of one creator record: the fields in their declaration order, the
      address written as the string its `toJSON` gives. */
  function CreatorJson(c: Creator): string {
    "{\"userAddress\":" + JsonString(c.userAddress)
      + ",\"username\":" + JsonString(c.username)
      + ",\"name\":" + JsonString(c.name) + "}"
  }

  /** `JSON.stringify(creatorList)`. */
  function CreatorsJson(cs: seq<Creator>): string {
    "[" + Join(seq(|cs|, i requires 0 <= i < |cs| => CreatorJson(cs[i]))) + "]"
  }

  /** `stringifiedCreatorList.includes(inputValue)`. */
  predicate SearchPretest(cs: seq<Creator>, q: string) {
    Includes(CreatorsJson(cs), q)
  }

  /** A username JSON writes unescaped stands in its record's JSON text as itself. */
  lemma UsernameInCreatorJson(c: Creator) returns (head: string, tail: string)
    requires JsonPlain(c.username)
    ensures CreatorJson(c) == head + c.username + tail
  {
    head := "{\"userAddress\":" + JsonString(c.userAddress) + ",\"username\":" + "\"";
    tail := "\"" + ",\"name\":" + JsonString(c.name) + "}";
    assert JsonString(c.username) == "\"" + c.username + "\"";
  }

  /** Regrouping five concatenated strings. */
  lemma Regroup(a: string, b: string, c: string, d: string, e: string)
    ensures a + (b + c + d) + e == (a + b) + c + (d + e)
  {
  }

  /** The pre-test lets through every existing username that JSON writes unescaped. */
  lemma PretestAcceptsPlainUsername(cs: seq<Creator>, i: nat)
    requires i < |cs| && JsonPlain(cs[i].username)
    ensures SearchPretest(cs, cs[i].username)
  {
    var u := cs[i].username;
    var items := seq(|cs|, k requires 0 <= k < |cs| => CreatorJson(cs[k]));
    var pre, post := JoinAround(items, i);
    var head, tail := UsernameInCreatorJson(cs[i]);
    assert Join(items) == pre + (head + u + tail) + post;
    Regroup(pre, head, u, tail, post);
    Regroup("[", pre + head, u, tail + post, "]");
    IncludesMiddle("[" + (pre + head), u, (tail + post) + "]");
  }

  /** The pre-test accepts the empty query whatever the list holds. */
  lemma PretestAcceptsEmptyQuery(cs: seq<Creator>)
    ensures SearchPretest(cs, "")
  {
  }

  /** The fixed text around the fields is printable. */
  lemma CreatorJsonFramingNoControl()
    ensures NoControl("{\"userAddress\":") && NoControl(",\"username\":") && NoControl(",\"name\":") && NoControl("}")
  {
  }

  /** One serialized record holds no control character: every one in a field is escaped. */
  lemma CreatorJsonNoControl(c: Creator)
    ensures NoControl(CreatorJson(c))
  {
    JsonStringNoControl(c.userAddress);
    JsonStringNoControl(c.username);
    JsonStringNoControl(c.name);
    CreatorJsonFramingNoControl();
    var t1 := "{\"userAddress\":" + JsonString(c.userAddress);
    NoControlAppend("{\"userAddress\":", JsonString(c.userAddress));
    var t2 := t1 + ",\"username\":";
    NoControlAppend(t1, ",\"username\":");
    var t3 := t2 + JsonString(c.username);
    NoControlAppend(t2, JsonString(c.username));
    var t4 := t3 + ",\"name\":";
    NoControlAppend(t3, ",\"name\":");
    var t5 := t4 + JsonString(c.name);
    NoControlAppend(t4, JsonString(c.name));
    NoControlAppend(t5, "}");
  }

  /** Nor does the stringified list. */
  lemma CreatorsJsonNoControl(cs: seq<Creator>)
    ensures NoControl(CreatorsJson(cs))
  {
    var items := seq(|cs|, i requires 0 <= i < |cs| => CreatorJson(cs[i]));
    forall i | 0 <= i < |cs| ensures NoControl(items[i]) {
      CreatorJsonNoControl(cs[i]);
    }
    JoinNoControl(items);
    NoControlAppend("[", Join(items));
    NoControlAppend("[" + Join(items), "]");
  }

  /** The pre-test rejects every query holding a control character, even one that equals a
      username exactly. */
  lemma PretestRejectsControlCharacters(cs: seq<Creator>, q: string)
    requires !NoControl(q)
    ensures !SearchPretest(cs, q)
  {
    CreatorsJsonNoControl(cs);
    if SearchPretest(cs, q) {
      IncludesNoControl(CreatorsJson(cs), q);
    }
  }

  // ---------------------------------------------------------------------------
  // userExists and the message feed

  /** `userExists(address)`: the name of the first creator with that address, else the name of
      the first supporter with it, else `undefined` (None). */
  function UserExists(cs: seq<Creator>, ss: seq<Supporter>, a: string): (r: Option<string>)
    ensures forall i :: 0 <= i < |cs| && cs[i].userAddress == a && (forall j :: 0 <= j < i ==> cs[j].userAddress != a) ==>
              r == Some(cs[i].name)
    ensures (forall i :: 0 <= i < |cs| ==> cs[i].userAddress != a) ==>
              forall i :: 0 <= i < |ss| && ss[i].userAddress == a && (forall j :: 0 <= j < i ==> ss[j].userAddress != a) ==>
                r == Some(ss[i].name)
    ensures r == None <==>
              (forall i :: 0 <= i < |cs| ==> cs[i].userAddress != a) && (forall i :: 0 <= i < |ss| ==> ss[i].userAddress != a)
  {
    FilterFirst(cs, CreatorAt(a));
    FilterFirst(ss, SupporterAt(a));
    var inCreator := Filter(cs, CreatorAt(a));
    if 0 < |inCreator| then Some(inCreator[0].name)
    else
      var inSupporter := Filter(ss, SupporterAt(a));
      if 0 < |inSupporter| then Some(inSupporter[0].name) else None
  }

  /** The messages the creator page lists: `messages.map(...)` keeps only those sent to the
      profile's creator (the others render as `false`), in the order they were recorded. */
  function MessagesFor(ms: seq<Message>, creator: string): seq<Message> {
    Filter(ms, SentTo(creator))
  }

  /** The feed only lists messages sent to the profile's creator, and lists each one of them. */
  lemma MessagesForExactly(ms: seq<Message>, creator: string, m: Message)
    ensures m in MessagesFor(ms, creator) <==> m in ms && m.creatorAddress == creator
  {
    if m in ms && m.creatorAddress == creator {
      var i :| 0 <= i < |ms| && ms[i] == m;
      var pre, post := ms[..i], ms[i + 1..];
      assert ms == pre + [m] + post;
      FilterAppend(pre + [m], post, SentTo(creator));
      FilterAppend(pre, [m], SentTo(creator));
    }
  }

  /** Appending a message to the account extends that creator's feed by exactly this message at
      the end, and leaves every other creator's feed as it was. */
  lemma MessagesForAppend(ms: seq<Message>, m: Message, creator: string)
    ensures MessagesFor(ms + [m], creator) ==
              MessagesFor(ms, creator) + (if m.creatorAddress == creator then [m] else [])
  {
    FilterAppend(ms, [m], SentTo(creator));
  }

  /** The name the feed prints for a message's sender. `userExists` answers `undefined` for an
      unknown address and `undefined !== null` holds, so the branch that prints the raw address is
      never taken: the template prints the name, or the text "undefined". */
  function SenderLabel(cs: seq<Creator>, ss: seq<Supporter>, a: string): string {
    match UserExists(cs, ss, a)
    case Some(n) => n
    case None => "undefined"
  }

  /** A sender with no profile is shown as "undefined", never by their address. */
  lemma UnknownSenderShownAsUndefined(cs: seq<Creator>, ss: seq<Supporter>, a: string)
    requires forall i :: 0 <= i < |cs| ==> cs[i].userAddress != a
    requires forall i :: 0 <= i < |ss| ==> ss[i].userAddress != a
    ensures SenderLabel(cs, ss, a) == "undefined"
  {
  }

  /** A sender who is both creator and supporter is shown by the creator profile's name. */
  lemma CreatorNameTakesPrecedence(cs: seq<Creator>, ss: seq<Supporter>, i: nat, j: nat)
    requires i < |cs| && j < |ss| && cs[i].userAddress == ss[j].userAddress
    requires forall k :: 0 <= k < i ==> cs[k].userAddress != cs[i].userAddress
    ensures SenderLabel(cs, ss, ss[j].userAddress) == cs[i].name
  {
  }
}
