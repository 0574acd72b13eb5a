/**
 * The admin home page (`AdminPortal`): it loads the consumer and reseller
 * lists once, filters each by its own search box, and shows either a loading
 * spinner or two user lists whose entries link to the detail pages.
 */
module AdminHome {
  import opened JsString
  import opened JsArray

  // ---------------------------------------------------------------------------
  // Records as the backend delivers them
  // ---------------------------------------------------------------------------

  datatype Consumer = Consumer(id: string, name: string, email: string)

  datatype Reseller = Reseller(id: string, ownerName: string, businessName: string, email: string)

  /** An element of the list `UserList` renders: either kind of account. */
  datatype User = ConsumerUser(consumer: Consumer) | ResellerUser(reseller: Reseller)

  // ---------------------------------------------------------------------------
  // Search filters
  // ---------------------------------------------------------------------------

  /** The consumer search: lower-cased name or e-mail includes the lower-cased term. */
  predicate ConsumerMatches(c: Consumer, search: string) {
    Includes(LowerStr(c.name), LowerStr(search)) || Includes(LowerStr(c.email), LowerStr(search))
  }

  /** The reseller search: lower-cased business name or e-mail includes the lower-cased term. */
  predicate ResellerMatches(r: Reseller, search: string) {
    Includes(LowerStr(r.businessName), LowerStr(search)) || Includes(LowerStr(r.email), LowerStr(search))
  }

  /** `filteredConsumers`. */
  function FilterConsumers(cs: seq<Consumer>, search: string): (r: seq<Consumer>)
    ensures |r| <= |cs|
    ensures forall i :: 0 <= i < |r| ==> r[i] in cs && ConsumerMatches(r[i], search)
    ensures forall i :: 0 <= i < |cs| && ConsumerMatches(cs[i], search) ==> cs[i] in r
  {
    Filter(cs, c => ConsumerMatches(c, search))
  }

  /** `filteredResellers`. */
  function FilterResellers(rs: seq<Reseller>, search: string): (r: seq<Reseller>)
    ensures |r| <= |rs|
    ensures forall i :: 0 <= i < |r| ==> r[i] in rs && ResellerMatches(r[i], search)
    ensures forall i :: 0 <= i < |rs| && ResellerMatches(rs[i], search) ==> rs[i] in r
  {
    Filter(rs, r => ResellerMatches(r, search))
  }

  /** A consumer matches exactly when the lower-cased term occurs in its lower-cased name or e-mail. */
  lemma ConsumerMatchesIff(c: Consumer, search: string)
    ensures ConsumerMatches(c, search) <==>
      (exists k :: OccursAt(LowerStr(c.name), LowerStr(search), k)) ||
      (exists k :: OccursAt(LowerStr(c.email), LowerStr(search), k))
  {
    IncludesIffOccurs(LowerStr(c.name), LowerStr(search));
    IncludesIffOccurs(LowerStr(c.email), LowerStr(search));
  }

  /** A reseller matches exactly when the lower-cased term occurs in its lower-cased business name or e-mail. */
  lemma ResellerMatchesIff(r: Reseller, search: string)
    ensures ResellerMatches(r, search) <==>
      (exists k :: OccursAt(LowerStr(r.businessName), LowerStr(search), k)) ||
      (exists k :: OccursAt(LowerStr(r.email), LowerStr(search), k))
  {
    IncludesIffOccurs(LowerStr(r.businessName), LowerStr(search));
    IncludesIffOccurs(LowerStr(r.email), LowerStr(search));
  }

  /** Both filters only delete records: order is kept and no record is added, repeated or altered. */
  lemma FiltersAreSubsequences(cs: seq<Consumer>, rs: seq<Reseller>, consumerSearch: string, resellerSearch: string)
    ensures Subsequence(FilterConsumers(cs, consumerSearch), cs)
    ensures multiset(FilterConsumers(cs, consumerSearch)) <= multiset(cs)
    ensures Subsequence(FilterResellers(rs, resellerSearch), rs)
    ensures multiset(FilterResellers(rs, resellerSearch)) <= multiset(rs)
  {
    FilterIsSubsequence(cs, c => ConsumerMatches(c, consumerSearch));
    SubsequenceMultiset(FilterConsumers(cs, consumerSearch), cs);
    FilterIsSubsequence(rs, r => ResellerMatches(r, resellerSearch));
    SubsequenceMultiset(FilterResellers(rs, resellerSearch), rs);
  }

  /** A matching consumer is kept as many times as it occurs; a non-matching one is dropped entirely. */
  lemma FilterConsumersMultiplicity(cs: seq<Consumer>, search: string, c: Consumer)
    ensures multiset(FilterConsumers(cs, search))[c] ==
      if ConsumerMatches(c, search) then multiset(cs)[c] else 0
  {
    FilterMultiplicity(cs, c' => ConsumerMatches(c', search), c);
  }

  /** A matching reseller is kept as many times as it occurs; a non-matching one is dropped entirely. */
  lemma FilterResellersMultiplicity(rs: seq<Reseller>, search: string, r: Reseller)
    ensures multiset(FilterResellers(rs, search))[r] ==
      if ResellerMatches(r, search) then multiset(rs)[r] else 0
  {
    FilterMultiplicity(rs, r' => ResellerMatches(r', search), r);
  }

  /** With the initial, empty search terms both lists are shown in full. */
  lemma EmptySearchKeepsAll(cs: seq<Consumer>, rs: seq<Reseller>)
    ensures FilterConsumers(cs, "") == cs
    ensures FilterResellers(rs, "") == rs
  {
    FilterKeepsAll(cs, c => ConsumerMatches(c, ""));
    FilterKeepsAll(rs, r => ResellerMatches(r, ""));
  }

  /** Search terms that differ only in letter case select the same records. */
  lemma SearchIgnoresCase(cs: seq<Consumer>, rs: seq<Reseller>, a: string, b: string)
    requires SameUpToCase(a, b)
    ensures FilterConsumers(cs, a) == FilterConsumers(cs, b)
    ensures FilterResellers(rs, a) == FilterResellers(rs, b)
  {
    SameUpToCaseIff(a, b);
    FilterCongruent(cs, c => ConsumerMatches(c, a), c => ConsumerMatches(c, b));
    FilterCongruent(rs, r => ResellerMatches(r, a), r => ResellerMatches(r, b));
  }

  /** Two reseller lists that differ at most in the owners' names, position by position. */
  ghost predicate SameExceptOwner(a: seq<Reseller>, b: seq<Reseller>) {
    |a| == |b| && forall i :: 0 <= i < |a| ==> a[i].(ownerName := b[i].ownerName) == b[i]
  }

  /** The owner's name never influences which resellers the search keeps. */
  lemma FilterResellersIgnoresOwner(a: seq<Reseller>, b: seq<Reseller>, search: string)
    requires SameExceptOwner(a, b)
    ensures SameExceptOwner(FilterResellers(a, search), FilterResellers(b, search))
  {
    var sameButOwner := (x: Reseller, y: Reseller) => x.(ownerName := y.ownerName) == y;
    FilterRelated(a, b, r => ResellerMatches(r, search), sameButOwner);
  }

  // ---------------------------------------------------------------------------
  // What a user list shows
  // ---------------------------------------------------------------------------

  /** One list row: the link target, the bold caption and the e-mail beside it. */
  datatype Entry = Entry(href: string, caption: string, email: string)

  /** A user list shows either the "not found" sentence or one row per user. */
  datatype ListView = Placeholder(text: string) | Entries(items: seq<Entry>)

  function UserId(u: User): string {
    match u
    case ConsumerUser(c) => c.id
    case ResellerUser(r) => r.id
  }

  function UserEmail(u: User): string {
    match u
    case ConsumerUser(c) => c.email
    case ResellerUser(r) => r.email
  }

  /** `'name' in user`: only consumer records carry a `name` field. */
  predicate HasName(u: User) {
    u.ConsumerUser?
  }

  /** The label chosen by `'name' in user ? user.name : user.businessName`. */
  function UserLabel(u: User): string {
    if HasName(u) then u.consumer.name else u.reseller.businessName
  }

  /** The row rendered for one user. */
  function EntryFor(u: User, linkPrefix: string): Entry {
    Entry(linkPrefix + UserId(u), UserLabel(u), UserEmail(u))
  }

  /** `UserList`: the placeholder for an empty list, otherwise one row per user in order. */
  function UserList(title: string, users: seq<User>, linkPrefix: string): (v: ListView)
    ensures v.Placeholder? <==> users == []
    ensures v.Placeholder? ==> v.text == "No " + LowerStr(title) + " found"
    ensures v.Entries? ==> |v.items| == |users|
    ensures v.Entries? ==> forall i :: 0 <= i < |users| ==>
      && v.items[i].href == linkPrefix + UserId(users[i])
      && v.items[i].email == UserEmail(users[i])
      && (users[i].ConsumerUser? ==> v.items[i].caption == users[i].consumer.name)
      && (users[i].ResellerUser? ==> v.items[i].caption == users[i].reseller.businessName)
  {
    if |users| == 0 then Placeholder("No " + LowerStr(title) + " found")
    else Entries(seq(|users|, i requires 0 <= i < |users| => EntryFor(users[i], linkPrefix)))
  }

  /** Users with distinct ids get distinct links (the ids are also the rows' React keys). */
  lemma {:induction false} DistinctIdsGiveDistinctLinks(title: string, users: seq<User>, linkPrefix: string, i: int, j: int)
    requires 0 <= i < |users| && 0 <= j < |users|
    requires UserId(users[i]) != UserId(users[j])
    ensures UserList(title, users, linkPrefix).Entries?
    ensures UserList(title, users, linkPrefix).items[i].href != UserList(title, users, linkPrefix).items[j].href
  {
    var v := UserList(title, users, linkPrefix);
    assert v.items[i].href[|linkPrefix|..] == UserId(users[i]);
    assert v.items[j].href[|linkPrefix|..] == UserId(users[j]);
  }

  // ---------------------------------------------------------------------------
  // The whole page
  // ---------------------------------------------------------------------------

  /** The spinner while loading, otherwise the consumer list beside the reseller list. */
  datatype PageView = Spinner | Lists(consumerList: ListView, resellerList: ListView)

  function AsConsumerUsers(cs: seq<Consumer>): (us: seq<User>)
    ensures |us| == |cs| && forall i :: 0 <= i < |cs| ==> us[i] == ConsumerUser(cs[i])
  {
    seq(|cs|, i requires 0 <= i < |cs| => ConsumerUser(cs[i]))
  }

  function AsResellerUsers(rs: seq<Reseller>): (us: seq<User>)
    ensures |us| == |rs| && forall i :: 0 <= i < |rs| ==> us[i] == ResellerUser(rs[i])
  {
    seq(|rs|, i requires 0 <= i < |rs| => ResellerUser(rs[i]))
  }

  const ConsumerLinkPrefix: string := "/admin/consumer/"
  const ResellerLinkPrefix: string := "/admin/reseller/"

  /** What `AdminPortal` renders for a given state. */
  function RenderPage(consumers: seq<Consumer>, resellers: seq<Reseller>,
                      consumerSearch: string, resellerSearch: string, isLoading: bool): (v: PageView)
    ensures v.Spinner? <==> isLoading
  {
    if isLoading then Spinner
    else
      Lists(UserList("Consumers", AsConsumerUsers(FilterConsumers(consumers, consumerSearch)), ConsumerLinkPrefix),
            UserList("Resellers", AsResellerUsers(FilterResellers(resellers, resellerSearch)), ResellerLinkPrefix))
  }

  /** The two list titles, as `title.toLowerCase()` turns them into the "not found" sentences. */
  lemma TitlesLowerCased()
    ensures LowerStr("Consumers") == "consumers"
    ensures LowerStr("Resellers") == "resellers"
  {
    assert LowerStr("Consumers")[0] == 'c';
    assert LowerStr("Resellers")[0] == 'r';
  }

  /**
   * Once loaded, the consumer column shows "No consumers found" exactly when
   * the search keeps nobody, and otherwise one row per kept consumer, in
   * order, captioned with the name and linking to the consumer's detail page.
   */
  lemma ConsumerColumn(consumers: seq<Consumer>, resellers: seq<Reseller>, consumerSearch: string, resellerSearch: string)
    ensures var v := RenderPage(consumers, resellers, consumerSearch, resellerSearch, false);
      var shown := FilterConsumers(consumers, consumerSearch);
      && v.Lists?
      && (v.consumerList.Placeholder? <==> shown == [])
      && (v.consumerList.Placeholder? ==> v.consumerList.text == "No consumers found")
      && (v.consumerList.Entries? ==> (|v.consumerList.items| == |shown| &&
            forall i :: 0 <= i < |shown| ==>
              v.consumerList.items[i] == Entry(ConsumerLinkPrefix + shown[i].id, shown[i].name, shown[i].email)))
  {
    TitlesLowerCased();
  }

  /**
   * Once loaded, the reseller column shows "No resellers found" exactly when
   * the search keeps nobody, and otherwise one row per kept reseller, in
   * order, captioned with the business name and linking to its detail page.
   */
  lemma ResellerColumn(consumers: seq<Consumer>, resellers: seq<Reseller>, consumerSearch: string, resellerSearch: string)
    ensures var v := RenderPage(consumers, resellers, consumerSearch, resellerSearch, false);
      var shown := FilterResellers(resellers, resellerSearch);
      && v.Lists?
      && (v.resellerList.Placeholder? <==> shown == [])
      && (v.resellerList.Placeholder? ==> v.resellerList.text == "No resellers found")
      && (v.resellerList.Entries? ==> (|v.resellerList.items| == |shown| &&
            forall i :: 0 <= i < |shown| ==>
              v.resellerList.items[i] == Entry(ResellerLinkPrefix + shown[i].id, shown[i].businessName, shown[i].email)))
  {
    TitlesLowerCased();
  }

  /**
   * Once loading is over and nothing has been typed, every loaded record is
   * listed, in order, linking to its detail page.
   */
  lemma LoadedPageListsEveryone(consumers: seq<Consumer>, resellers: seq<Reseller>)
    ensures var v := RenderPage(consumers, resellers, "", "", false);
      && v.Lists?
      && (consumers == [] <==> v.consumerList == Placeholder("No consumers found"))
      && (consumers != [] ==> (|v.consumerList.items| == |consumers| &&
            forall i :: 0 <= i < |consumers| ==> v.consumerList.items[i].href == ConsumerLinkPrefix + consumers[i].id))
      && (resellers == [] <==> v.resellerList == Placeholder("No resellers found"))
      && (resellers != [] ==> (|v.resellerList.items| == |resellers| &&
            forall i :: 0 <= i < |resellers| ==> v.resellerList.items[i].href == ResellerLinkPrefix + resellers[i].id))
  {
    EmptySearchKeepsAll(consumers, resellers);
    ConsumerColumn(consumers, resellers, "", "");
    ResellerColumn(consumers, resellers, "", "");
  }

  /**
   * A single consumer Alice: searching "ali" still lists her, searching "zzz"
   * shows the "No consumers found" sentence.
   */
  lemma AliceSearchScenario()
    ensures var alice := Consumer("1", "Alice", "a@x.com");
      && RenderPage([alice], [], "ali", "", false).consumerList
           == Entries([Entry("/admin/consumer/1", "Alice", "a@x.com")])
      && RenderPage([alice], [], "zzz", "", false).consumerList
           == Placeholder("No consumers found")
  {
    var alice := Consumer("1", "Alice", "a@x.com");
    AliceMatches();
    assert FilterConsumers([alice], "ali") == [alice];
    assert ConsumerLinkPrefix + "1" == "/admin/consumer/1";
    ConsumerColumn([alice], [], "ali", "");
    var items := RenderPage([alice], [], "ali", "", false).consumerList.items;
    assert items == [Entry("/admin/consumer/1", "Alice", "a@x.com")];
    ConsumerColumn([alice], [], "zzz", "");
  }

  /** "ali" occurs in Alice's lower-cased name; "zzz" occurs in neither her name nor her e-mail. */
  lemma AliceMatches()
    ensures ConsumerMatches(Consumer("1", "Alice", "a@x.com"), "ali")
    ensures !ConsumerMatches(Consumer("1", "Alice", "a@x.com"), "zzz")
  {
    assert LowerStr("Alice") == "alice" by {
      assert LowerStr("Alice")[0] == 'a';
    }
    assert LowerStr("ali") == "ali";
    assert LowerStr("a@x.com") == "a@x.com";
    assert LowerStr("zzz") == "zzz";
    MissingFirstCharNotIncluded("alice", "zzz");
    MissingFirstCharNotIncluded("a@x.com", "zzz");
  }

  // ---------------------------------------------------------------------------
  // The component's state and its loading sequence
  // ---------------------------------------------------------------------------

  /** How one `fetch(...)` followed by `.json()` ended: with a decoded body, or by throwing. */
  datatype FetchOutcome<T> = Fetched(data: T) | FetchFailed

  /** The state hooks of `AdminPortal`. */
  class AdminPortal {
    var consumers: seq<Consumer>
    var resellers: seq<Reseller>
    var consumerSearch: string
    var resellerSearch: string
    var isLoading: bool

    /** The initial `useState` values: empty lists, empty searches, loading. */
    constructor ()
      ensures consumers == [] && resellers == []
      ensures consumerSearch == "" && resellerSearch == ""
      ensures isLoading
    {
      consumers := [];
      resellers := [];
      consumerSearch := "";
      resellerSearch := "";
      isLoading := true;
    }

    /** What the component renders in its current state. */
    function View(): PageView
      reads this
    {
      RenderPage(consumers, resellers, consumerSearch, resellerSearch, isLoading)
    }

    /**
     * `fetchData`: raise the loading flag, fetch the consumers, then the
     * resellers; a throw skips the rest of the `try` block; the `finally`
     * block always clears the flag. `resellersRequested` tells whether the
     * second request was issued at all.
     */
    method FetchData(consumersResult: FetchOutcome<seq<Consumer>>, resellersResult: FetchOutcome<seq<Reseller>>)
      returns (resellersRequested: bool)
      modifies this
      ensures !isLoading && View().Lists?
      ensures resellersRequested <==> consumersResult.Fetched?
      ensures consumers == (if consumersResult.Fetched? then consumersResult.data else old(consumers))
      ensures resellers == (if consumersResult.Fetched? && resellersResult.Fetched?
                            then resellersResult.data else old(resellers))
      ensures consumerSearch == old(consumerSearch) && resellerSearch == old(resellerSearch)
    {
      isLoading := true;
      resellersRequested := false;
      if consumersResult.Fetched? {
        consumers := consumersResult.data;
        resellersRequested := true;
        if resellersResult.Fetched? {
          resellers := resellersResult.data;
        }
      }
      isLoading := false;
    }

    /** Typing into the consumer search box. */
    method SetConsumerSearch(term: string)
      modifies this
      ensures consumerSearch == term
      ensures consumers == old(consumers) && resellers == old(resellers)
      ensures resellerSearch == old(resellerSearch) && isLoading == old(isLoading)
    {
      consumerSearch := term;
    }

    /** Typing into the reseller search box. */
    method SetResellerSearch(term: string)
      modifies this
      ensures resellerSearch == term
      ensures consumers == old(consumers) && resellers == old(resellers)
      ensures consumerSearch == old(consumerSearch) && isLoading == old(isLoading)
    {
      resellerSearch := term;
    }
  }
}
