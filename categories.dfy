/**
 * The item catalog (src/api/categories.ts): the three endpoints, the filter of
 * enabled items, and the randomized search for an affordable item.
 */
module Categories {
  import opened Wrappers
  import opened Json
  import opened Records
  import opened Base
  import opened Utils

  datatype Category = Category(id: string, name: string)

  datatype Item = Item(id: string, name: string, nextLevel: int, price: int, disabled: bool)

  datatype CategoriesBody = CategoriesBody(data: seq<Category>, realtimeData: Option<Payload>)

  datatype ItemsBody = ItemsBody(data: seq<Item>, realtimeData: Option<Payload>)

  datatype PurchaseBody = PurchaseBody(level: int, realtimeData: Option<Payload>)

  function CategoriesPath(c: Client): string {
    "/api/v1/item/categories?userId=" + Decimal(c.userId)
  }

  /** getAll: no status check; a truthy error yields no result. */
  function GetAll(c: Client, resp: Response<CategoriesBody>): (r: Call<CategoriesBody>)
    ensures r.sent == [Sent(c, CategoriesPath(c), map[])]
    ensures r.result.Some? <==> resp.Response? && resp.body.Parsed? && !Truthy(resp.body.error)
    ensures r.result.Some? ==> r.result.value == resp.body.content
  {
    Call([Sent(c, CategoriesPath(c), map[])], Settle(resp, false, TruthyError))
  }

  function ItemsPath(c: Client, categoryId: string): string {
    "/api/v1/item?userId=" + Decimal(c.userId) + "&categoryId=" + categoryId
  }

  /** getCategoryInfo: the same policy, for one category's items. */
  function GetCategoryInfo(c: Client, categoryId: string, resp: Response<ItemsBody>): (r: Call<ItemsBody>)
    ensures r.sent == [Sent(c, ItemsPath(c, categoryId), map[])]
    ensures r.result.Some? <==> resp.Response? && resp.body.Parsed? && !Truthy(resp.body.error)
    ensures r.result.Some? ==> r.result.value == resp.body.content
  {
    Call([Sent(c, ItemsPath(c, categoryId), map[])], Settle(resp, false, TruthyError))
  }

  const PurchasePath := "/api/v1/item/purchase"

  /** The JSON body `{ userId, itemId, levelToBuy }`. */
  function PurchaseRequestBody(c: Client, itemId: string, levelToBuy: int): Value {
    Obj(map["userId" := Num(c.userId), "itemId" := Str(itemId), "levelToBuy" := Num(levelToBuy)])
  }

  /** purchaseItem: one POST; a truthy error yields no result. */
  function PurchaseItem(c: Client, itemId: string, levelToBuy: int, resp: Response<PurchaseBody>): (r: Call<PurchaseBody>)
    ensures r.sent == [Sent(c, PurchasePath, Post(PurchaseRequestBody(c, itemId, levelToBuy)))]
    ensures r.result.Some? <==> resp.Response? && resp.body.Parsed? && !Truthy(resp.body.error)
    ensures r.result.Some? ==> r.result.value == resp.body.content
  {
    Call([Sent(c, PurchasePath, Post(PurchaseRequestBody(c, itemId, levelToBuy)))], Settle(resp, false, TruthyError))
  }

  /** `items.filter((el) => !el.limitation.disabled)`. */
  function Enabled(items: seq<Item>): (r: seq<Item>)
    ensures forall x :: x in r <==> x in items && !x.disabled
    ensures |r| <= |items|
    ensures (forall i :: 0 <= i < |items| ==> !items[i].disabled) ==> r == items
  {
    if items == [] then []
    else if items[0].disabled then Enabled(items[1..])
    else [items[0]] + Enabled(items[1..])
  }

  /** The filter keeps order and multiplicity: it distributes over concatenation and keeps exactly the enabled singletons. */
  lemma {:induction false} EnabledAppend(a: seq<Item>, b: seq<Item>)
    ensures Enabled(a + b) == Enabled(a) + Enabled(b)
  {
    if a == [] {
      assert a + b == b;
    } else {
      assert a + b == [a[0]] + (a[1..] + b);
      EnabledAppend(a[1..], b);
    }
  }

  lemma EnabledSingleton(x: Item)
    ensures Enabled([x]) == (if x.disabled then [] else [x])
  {
  }

  /** `items.filter((el) => el.price < balance)`. */
  function Affordable(items: seq<Item>, balance: int): (r: seq<Item>)
    ensures forall x :: x in r <==> x in items && x.price < balance
  {
    if items == [] then []
    else if items[0].price < balance then [items[0]] + Affordable(items[1..], balance)
    else Affordable(items[1..], balance)
  }

  lemma {:induction false} AffordableAppend(a: seq<Item>, b: seq<Item>, balance: int)
    ensures Affordable(a + b, balance) == Affordable(a, balance) + Affordable(b, balance)
  {
    if a == [] {
      assert a + b == b;
    } else {
      assert a + b == [a[0]] + (a[1..] + b);
      AffordableAppend(a[1..], b, balance);
    }
  }

  lemma AffordableSingleton(x: Item, balance: int)
    ensures Affordable([x], balance) == (if x.price < balance then [x] else [])
  {
  }

  /** getAvailableItemsInCategory: the enabled items, in order; no result when the fetch failed. */
  function GetAvailableItemsInCategory(c: Client, categoryId: string, resp: Response<ItemsBody>): (r: Call<seq<Item>>)
    ensures r.sent == GetCategoryInfo(c, categoryId, resp).sent
    ensures r.result.Some? <==> GetCategoryInfo(c, categoryId, resp).result.Some?
    ensures r.result.Some? ==> forall x :: x in r.result.value <==> x in resp.body.content.data && !x.disabled
    ensures r.result.Some? ==> r.result.value == Enabled(resp.body.content.data)
  {
    var info := GetCategoryInfo(c, categoryId, resp);
    Call(info.sent, if info.result.Some? then Some(Enabled(info.result.value.data)) else None)
  }

  /** lodash `sample`: the element at floor(draw * length), none for an empty sequence. */
  function Sample<T>(s: seq<T>, d: Draw): (r: Option<T>)
    ensures r.None? <==> s == []
    ensures r.Some? ==> r.value in s
  {
    if s == [] then None
    else
      ScaledDraw(d, |s|);
      Some(s[(d.num * |s|) / d.den])
  }

  /** The ids of the listed categories that are not yet checked, in listing order. */
  function Unchecked(cats: seq<Category>, checked: seq<string>): (ids: seq<string>)
    ensures forall id :: id in ids <==> id !in checked && id in Ids(cats)
  {
    if cats == [] then []
    else if cats[0].id in checked then Unchecked(cats[1..], checked)
    else [cats[0].id] + Unchecked(cats[1..], checked)
  }

  function Ids(cats: seq<Category>): set<string> {
    set c | c in cats :: c.id
  }

  predicate Distinct(s: seq<string>) {
    forall i, j :: 0 <= i < j < |s| ==> s[i] != s[j]
  }

  /** A sequence without repetitions drawn from a set is no longer than the set. */
  lemma {:induction false} DistinctWithin(s: seq<string>, universe: set<string>)
    requires Distinct(s)
    requires forall x :: x in s ==> x in universe
    ensures |s| <= |universe|
  {
    if s != [] {
      var last := s[|s| - 1];
      var init := s[..|s| - 1];
      assert forall x :: x in init ==> x in universe - {last} by {
        forall x | x in init ensures x in universe - {last} {
          var k :| 0 <= k < |init| && init[k] == x;
          assert s[k] == x;
        }
      }
      DistinctWithin(init, universe - {last});
    }
  }

  /**
   * One pass of the search loop, as the server and the random draws play it
   * out: the getAll answer, the draw that samples a category, the answer the
   * items request would get for each category id, and the draw that samples
   * an item.
   */
  datatype Round = Round(
    categories: Response<CategoriesBody>,
    categoryPick: Draw,
    items: map<string, Response<ItemsBody>>,
    itemPick: Draw)

  /** The answer a round's items request gets for one category; an id the round does not script fails in transport. */
  function ItemsAnswer(round: Round, categoryId: string): Response<ItemsBody> {
    if categoryId in round.items then round.items[categoryId] else NetworkFailure
  }

  /** The category list a round's getAll yields, if it succeeds. */
  function Listing(r: Round): Option<seq<Category>> {
    var all := Settle(r.categories, false, TruthyError);
    if all.Some? then Some(all.value.data) else None
  }

  /** Every round's getAll succeeds with the same category list. */
  predicate StableCatalog(rounds: seq<Round>) {
    |rounds| > 0 && Listing(rounds[0]).Some? &&
    forall i :: 0 <= i < |rounds| ==> Listing(rounds[i]) == Listing(rounds[0])
  }

  /** Every round's items request gets the same answer for each category. */
  predicate StableItems(rounds: seq<Round>) {
    forall i :: 0 <= i < |rounds| ==> rounds[i].items == rounds[0].items
  }

  /**
   * How a search ends: an item was found, no unchecked category was left
   * (`return undefined`), or the rounds ran out while the source's do-while
   * would still be going.
   */
  datatype SearchEnd = Found(item: Item) | NothingLeft | Searching

  /** No request in `sent` names a method other than the default GET. */
  predicate OnlyGets(sent: seq<Sent>) {
    forall f :: f in sent ==> MethodOpt !in f.opts
  }

  lemma AppendGets(sent: seq<Sent>, more: seq<Sent>)
    requires OnlyGets(sent) && OnlyGets(more)
    ensures OnlyGets(sent + more)
  {
  }

  lemma AppendFresh(checked: seq<string>, id: string)
    requires Distinct(checked) && id !in checked
    ensures Distinct(checked + [id])
  {
    var s := checked + [id];
    forall i, j | 0 <= i < j < |s| ensures s[i] != s[j] {
      if j == |checked| {
        assert s[i] == checked[i];
      }
    }
  }

  /** The category's items load in this round and some enabled item is priced below the balance. */
  predicate Offers(c: Client, balance: int, round: Round, categoryId: string) {
    var items := GetAvailableItemsInCategory(c, categoryId, ItemsAnswer(round, categoryId)).result;
    items.Some? && Affordable(items.value, balance) != []
  }

  /** The item is an affordable, enabled item of the category, as the round's item answer lists them. */
  predicate FoundIn(c: Client, balance: int, item: Item, categoryId: string, round: Round) {
    var items := GetAvailableItemsInCategory(c, categoryId, ItemsAnswer(round, categoryId)).result;
    items.Some? && item in Affordable(items.value, balance)
  }

  /** Every listed category has been checked. */
  predicate AllChecked(cats: seq<Category>, checked: seq<string>) {
    forall id :: id in Ids(cats) ==> id in checked
  }

  /** When no id is empty, a pick that yields no category means every listed category is checked. */
  lemma ExhaustedListing(cats: seq<Category>, checked: seq<string>, d: Draw)
    requires var pick := Sample(Unchecked(cats, checked), d); pick.None? || pick.value == ""
    ensures "" !in Ids(cats) ==> AllChecked(cats, checked)
  {
  }

  /**
   * What one pass guarantees the search loop: the checked ids stay distinct
   * and grow by at most one listed id (by exactly one, a category that
   * offered nothing, when the listing succeeds and the pass goes on
   * searching); a failed listing changes nothing; a found item is an
   * affordable enabled item of the category just checked; and, when no id is
   * empty, giving up means every listed category was already checked.
   */
  predicate PassKeeps(c: Client, balance: int, round: Round, checked: seq<string>, end: SearchEnd, checked': seq<string>) {
    && Distinct(checked')
    && (end.Found? ==> !end.item.disabled && end.item.price < balance)
    && (Listing(round).None? ==> end.Searching? && checked' == checked)
    && (Listing(round).Some? ==> forall id :: id in checked' ==> id in checked || id in Ids(Listing(round).value))
    && (Listing(round).Some? && end.Searching? ==>
          |checked'| == |checked| + 1 && !Offers(c, balance, round, checked'[|checked|]))
    && (checked' == checked || (|checked'| == |checked| + 1 && checked'[..|checked|] == checked))
    && (end.NothingLeft? ==> checked' == checked)
    && (end.Found? ==> |checked'| > 0 && FoundIn(c, balance, end.item, checked'[|checked'| - 1], round))
    && (Listing(round).Some? && end.NothingLeft? && "" !in Ids(Listing(round).value) ==>
          AllChecked(Listing(round).value, checked))
  }

  /**
   * Which category and which item one pass picks: the category sampled from
   * the unchecked ids; giving up exactly when there is none or it is the
   * empty id; otherwise that id joins the checked list, and the pass finds an
   * item exactly when the category's items load and some enabled item is
   * affordable, namely the one sampled from them.
   */
  predicate PassPicks(c: Client, balance: int, round: Round, checked: seq<string>, end: SearchEnd, checked': seq<string>) {
    Listing(round).Some? ==>
      var pick := Sample(Unchecked(Listing(round).value, checked), round.categoryPick);
      && (end.NothingLeft? <==> pick.None? || pick.value == "")
      && (pick.Some? && pick.value != "" ==>
            var items := GetAvailableItemsInCategory(c, pick.value, ItemsAnswer(round, pick.value)).result;
            && checked' == checked + [pick.value]
            && (end.Found? <==> items.Some? && Affordable(items.value, balance) != [])
            && (end.Found? ==> end.item == Sample(Affordable(items.value, balance), round.itemPick).value))
  }

  /** What one pass ends with: its outcome, the checked ids after it, and the requests it issued. */
  datatype PassResult = PassResult(end: SearchEnd, checked: seq<string>, sent: seq<Sent>)

  /**
   * One pass of getAvailableItem's do-while: list the categories, sample one
   * not yet checked, mark it checked (even when its items cannot be fetched)
   * and sample an enabled item cheaper than the balance.
   */
  function Pass(c: Client, balance: int, round: Round, checked: seq<string>): (r: PassResult)
    requires Distinct(checked)
    ensures Distinct(r.checked)
    ensures OnlyGets(r.sent)
    ensures |r.sent| > 0 && r.sent[0] == Sent(c, CategoriesPath(c), map[])
  {
    var all := GetAll(c, round.categories);
    if all.result.None? then PassResult(Searching, checked, all.sent)
    else
      var pick := Sample(Unchecked(all.result.value.data, checked), round.categoryPick);
      if pick.None? || pick.value == "" then
        ExhaustedListing(all.result.value.data, checked, round.categoryPick);
        PassResult(NothingLeft, checked, all.sent)
      else
        var items := GetAvailableItemsInCategory(c, pick.value, ItemsAnswer(round, pick.value));
        var choice := if items.result.Some? then Sample(Affordable(items.result.value, balance), round.itemPick) else None;
        AppendGets(all.sent, items.sent);
        AppendFresh(checked, pick.value);
        PassResult(if choice.Some? then Found(choice.value) else Searching, checked + [pick.value], all.sent + items.sent)
  }

  /** Every pass keeps what PassKeeps states and picks as PassPicks states. */
  lemma PassFacts(c: Client, balance: int, round: Round, checked: seq<string>)
    requires Distinct(checked)
    ensures var r := Pass(c, balance, round, checked);
      PassKeeps(c, balance, round, checked, r.end, r.checked) && PassPicks(c, balance, round, checked, r.end, r.checked)
  {
  }

  /**
   * What the search knows after `i` passes, the last of which ended the
   * search unless it is still Searching. With a stable catalog the k-th pass
   * checked `checked[k]`, and every such category offered nothing except
   * the one an item was found in.
   */
  predicate Progress(c: Client, balance: int, rounds: seq<Round>, i: nat, end: SearchEnd, checked: seq<string>) {
    && i <= |rounds|
    && Distinct(checked) && |checked| <= i
    && (end.Found? ==> !end.item.disabled && end.item.price < balance)
    && (end.Found? ==> 0 < i && |checked| > 0 && FoundIn(c, balance, end.item, checked[|checked| - 1], rounds[i - 1]))
    && (i == 0 ==> end.Searching?)
    && ((forall j :: 0 <= j < i ==> Listing(rounds[j]).None?) ==> end.Searching? && checked == [])
    && (StableCatalog(rounds) ==>
          && (forall id :: id in checked ==> id in Ids(Listing(rounds[0]).value))
          && (end.Searching? ==> |checked| == i)
          && (end.NothingLeft? ==> |checked| == i - 1)
          && (forall k :: 0 <= k < |checked| && !(end.Found? && k == |checked| - 1) ==>
                !Offers(c, balance, rounds[k], checked[k]))
          && (end.NothingLeft? && "" !in Ids(Listing(rounds[0]).value) ==> AllChecked(Listing(rounds[0]).value, checked)))
  }

  /** A pass made while the search is still going extends its progress by one pass. */
  lemma PassProgress(c: Client, balance: int, rounds: seq<Round>, i: nat, checked: seq<string>,
                     end': SearchEnd, checked': seq<string>)
    requires i < |rounds| && Progress(c, balance, rounds, i, Searching, checked)
    requires PassKeeps(c, balance, rounds[i], checked, end', checked')
    ensures Progress(c, balance, rounds, i + 1, end', checked')
  {
    if StableCatalog(rounds) {
      assert Listing(rounds[i]) == Listing(rounds[0]);
      assert |checked| == i;
      if checked' != checked {
        assert checked' == checked + [checked'[i]];
      }
    }
  }

  /** The outcome of a search: how it ended, the checked ids, the requests and the number of passes made. */
  datatype Outcome = Outcome(end: SearchEnd, checked: seq<string>, sent: seq<Sent>, passes: nat)

  /** The passes from the i-th on, starting from the ids checked and the requests issued so far. */
  function SearchFrom(c: Client, balance: int, rounds: seq<Round>, i: nat, checked: seq<string>, sent: seq<Sent>): Outcome
    requires i <= |rounds| && Distinct(checked)
    decreases |rounds| - i, 1
  {
    if i == |rounds| then Outcome(Searching, checked, sent, i)
    else PassThen(c, balance, rounds, i, checked, sent)
  }

  /** The i-th pass, then the passes after it unless it ended the search. */
  function PassThen(c: Client, balance: int, rounds: seq<Round>, i: nat, checked: seq<string>, sent: seq<Sent>): Outcome
    requires i < |rounds| && Distinct(checked)
    decreases |rounds| - i, 0
  {
    var p := Pass(c, balance, rounds[i], checked);
    if p.end.Searching? then SearchFrom(c, balance, rounds, i + 1, p.checked, sent + p.sent)
    else Outcome(p.end, p.checked, sent + p.sent, i + 1)
  }

  /** The remaining passes keep the search's progress. */
  lemma {:induction false} SearchFromProgress(c: Client, balance: int, rounds: seq<Round>, i: nat, checked: seq<string>, sent: seq<Sent>)
    requires i <= |rounds| && Progress(c, balance, rounds, i, Searching, checked)
    ensures var o := SearchFrom(c, balance, rounds, i, checked, sent);
      Progress(c, balance, rounds, o.passes, o.end, o.checked) && (o.end.Searching? ==> o.passes == |rounds|)
    decreases |rounds| - i
  {
    if i < |rounds| {
      assert SearchFrom(c, balance, rounds, i, checked, sent) == PassThen(c, balance, rounds, i, checked, sent);
      var p := Pass(c, balance, rounds[i], checked);
      PassFacts(c, balance, rounds[i], checked);
      hide Pass;
      PassProgress(c, balance, rounds, i, checked, p.end, p.checked);
      if p.end.Searching? {
        SearchFromProgress(c, balance, rounds, i + 1, p.checked, sent + p.sent);
        assert SearchFrom(c, balance, rounds, i, checked, sent) == SearchFrom(c, balance, rounds, i + 1, p.checked, sent + p.sent);
      } else {
        assert SearchFrom(c, balance, rounds, i, checked, sent) == Outcome(p.end, p.checked, sent + p.sent, i + 1);
      }
    }
  }

  /** The remaining passes keep the requests issued so far and add only GETs, the first of them getAll. */
  lemma {:induction false} SearchFromSent(c: Client, balance: int, rounds: seq<Round>, i: nat, checked: seq<string>, sent: seq<Sent>)
    requires i <= |rounds| && Distinct(checked)
    ensures var o := SearchFrom(c, balance, rounds, i, checked, sent);
      && (OnlyGets(sent) ==> OnlyGets(o.sent))
      && |o.sent| >= |sent| && o.sent[..|sent|] == sent
      && (i < |rounds| ==> |o.sent| > |sent| && o.sent[|sent|] == Sent(c, CategoriesPath(c), map[]))
    decreases |rounds| - i
  {
    if i < |rounds| {
      assert SearchFrom(c, balance, rounds, i, checked, sent) == PassThen(c, balance, rounds, i, checked, sent);
      var p := Pass(c, balance, rounds[i], checked);
      if OnlyGets(sent) {
        AppendGets(sent, p.sent);
      }
      if p.end.Searching? {
        SearchFromSent(c, balance, rounds, i + 1, p.checked, sent + p.sent);
        var o := SearchFrom(c, balance, rounds, i + 1, p.checked, sent + p.sent);
        assert o.sent[..|sent|] == sent by {
          assert o.sent[..|sent + p.sent|][..|sent|] == o.sent[..|sent|];
          assert (sent + p.sent)[..|sent|] == sent;
        }
        assert o.sent[|sent|] == (sent + p.sent)[|sent|];
      } else {
        assert (sent + p.sent)[..|sent|] == sent;
      }
    }
  }

  /**
   * What a stopped search concludes. A found item is an affordable enabled
   * item of the category the last pass checked. Only GETs are sent, the
   * first of them getAll. With a stable catalog every pass checks a new
   * category, so the search ends within one pass more than there are
   * categories; it gives up only once every listed category was checked and
   * offered nothing (unless an id is the empty string, which reads as no
   * pick); and when the item answers are stable too, a category that offers
   * an affordable item means an item is found.
   */
  predicate Concludes(c: Client, balance: int, rounds: seq<Round>, o: Outcome) {
    && o.passes <= |rounds| && (o.end.Searching? ==> o.passes == |rounds|)
    && (o.end.Found? ==> 0 < o.passes && |o.checked| > 0 && FoundIn(c, balance, o.end.item, o.checked[|o.checked| - 1], rounds[o.passes - 1]))
    && (o.end.Found? ==> !o.end.item.disabled && o.end.item.price < balance)
    && Distinct(o.checked) && |o.checked| <= |rounds|
    && OnlyGets(o.sent)
    && (|rounds| > 0 ==> |o.sent| > 0 && o.sent[0] == Sent(c, CategoriesPath(c), map[]))
    && ((forall i :: 0 <= i < |rounds| ==> Listing(rounds[i]).None?) ==> o.end.Searching? && o.checked == [])
    && (StableCatalog(rounds) ==>
          && (forall id :: id in o.checked ==> id in Ids(Listing(rounds[0]).value))
          && (|rounds| > |Ids(Listing(rounds[0]).value)| ==> !o.end.Searching?)
          && (o.end.Searching? ==> |o.checked| == |rounds|)
          && (o.end.NothingLeft? && "" !in Ids(Listing(rounds[0]).value) ==> AllChecked(Listing(rounds[0]).value, o.checked))
          && (o.end.NothingLeft? ==> forall k :: 0 <= k < |o.checked| ==> !Offers(c, balance, rounds[k], o.checked[k]))
          && (StableItems(rounds) && |rounds| > |Ids(Listing(rounds[0]).value)| && "" !in Ids(Listing(rounds[0]).value) &&
              (exists id :: id in Ids(Listing(rounds[0]).value) && Offers(c, balance, rounds[0], id))
              ==> o.end.Found?))
  }

  /** What a search that stopped after `o.passes` passes concludes from its progress. */
  lemma SearchConclusion(c: Client, balance: int, rounds: seq<Round>, o: Outcome)
    requires Progress(c, balance, rounds, o.passes, o.end, o.checked)
    requires o.end.Searching? ==> o.passes == |rounds|
    requires OnlyGets(o.sent) && (|rounds| > 0 ==> |o.sent| > 0 && o.sent[0] == Sent(c, CategoriesPath(c), map[]))
    ensures Concludes(c, balance, rounds, o)
  {
    if StableCatalog(rounds) {
      DistinctWithin(o.checked, Ids(Listing(rounds[0]).value));
      if StableItems(rounds) && |rounds| > |Ids(Listing(rounds[0]).value)| && "" !in Ids(Listing(rounds[0]).value) &&
         o.end.NothingLeft? {
        forall id | id in Ids(Listing(rounds[0]).value) ensures !Offers(c, balance, rounds[0], id) {
          var k :| 0 <= k < |o.checked| && o.checked[k] == id;
          assert !Offers(c, balance, rounds[k], o.checked[k]);
          assert ItemsAnswer(rounds[k], id) == ItemsAnswer(rounds[0], id);
        }
      }
    }
  }

  /** The search getAvailableItem makes: passes until one ends it or the rounds run out. */
  function Search(c: Client, balance: int, rounds: seq<Round>): Outcome {
    SearchFrom(c, balance, rounds, 0, [], [])
  }

  /** Every search concludes what Concludes states. */
  lemma SearchConcludes(c: Client, balance: int, rounds: seq<Round>)
    ensures Concludes(c, balance, rounds, Search(c, balance, rounds))
  {
    SearchFromProgress(c, balance, rounds, 0, [], []);
    SearchFromSent(c, balance, rounds, 0, [], []);
    SearchConclusion(c, balance, rounds, Search(c, balance, rounds));
  }

  /**
   * getAvailableItem: repeat passes until an item is found or no unchecked
   * category is left; `passes` is the number of passes made. A failing
   * getAll makes no progress. The outcome is Search's, so a found item is
   * an affordable item of the category the last pass checked, and with a
   * stable catalog and stable item answers an item is found whenever some
   * category offers one.
   */
  method GetAvailableItem(c: Client, balance: int, rounds: seq<Round>)
    returns (end: SearchEnd, checked: seq<string>, sent: seq<Sent>, passes: nat)
    ensures Outcome(end, checked, sent, passes) == Search(c, balance, rounds)
    ensures passes <= |rounds| && (end.Searching? ==> passes == |rounds|)
    ensures end.Found? ==> 0 < passes && |checked| > 0 && FoundIn(c, balance, end.item, checked[|checked| - 1], rounds[passes - 1])
    ensures end.Found? ==> !end.item.disabled && end.item.price < balance
    ensures OnlyGets(sent)
    ensures StableCatalog(rounds) && |rounds| > |Ids(Listing(rounds[0]).value)| ==> !end.Searching?
    ensures StableCatalog(rounds) && end.NothingLeft? && "" !in Ids(Listing(rounds[0]).value) ==>
      AllChecked(Listing(rounds[0]).value, checked)
    ensures StableCatalog(rounds) && StableItems(rounds) && |rounds| > |Ids(Listing(rounds[0]).value)| &&
            "" !in Ids(Listing(rounds[0]).value) &&
            (exists id :: id in Ids(Listing(rounds[0]).value) && Offers(c, balance, rounds[0], id))
            ==> end.Found?
  {
    hide Pass;
    end, checked, sent := Searching, [], [];
    var i: nat := 0;
    while end.Searching? && i < |rounds|
      invariant i <= |rounds| && Distinct(checked)
      invariant Search(c, balance, rounds) ==
        if end.Searching? then SearchFrom(c, balance, rounds, i, checked, sent) else Outcome(end, checked, sent, i)
    {
      var p := Pass(c, balance, rounds[i], checked);
      assert SearchFrom(c, balance, rounds, i, checked, sent) == PassThen(c, balance, rounds, i, checked, sent);
      assert PassThen(c, balance, rounds, i, checked, sent) ==
        if p.end.Searching? then SearchFrom(c, balance, rounds, i + 1, p.checked, sent + p.sent)
        else Outcome(p.end, p.checked, sent + p.sent, i + 1);
      end, checked, sent, i := p.end, p.checked, sent + p.sent, i + 1;
    }
    passes := i;
    SearchConcludes(c, balance, rounds);
  }

  /** What findAndBuy ends with: the search's outcome, the purchase answer, and the requests issued. */
  datatype BuyOutcome = BuyOutcome(end: SearchEnd, response: Option<PurchaseBody>, sent: seq<Sent>)

  /**
   * findAndBuy's effect: a found item is bought at its next level by the last
   * request, after the search's GETs, and the purchase answer is the result;
   * with no item there is no purchase and no result.
   */
  function FindAndBuyOutcome(c: Client, balance: int, rounds: seq<Round>, purchase: Response<PurchaseBody>): (r: BuyOutcome)
    ensures r.end == Search(c, balance, rounds).end
    ensures r.end.Found? ==>
      && !r.end.item.disabled && r.end.item.price < balance
      && |r.sent| > 0
      && r.sent[|r.sent| - 1] == Sent(c, PurchasePath, Post(PurchaseRequestBody(c, r.end.item.id, r.end.item.nextLevel)))
      && r.response == PurchaseItem(c, r.end.item.id, r.end.item.nextLevel, purchase).result
    ensures !r.end.Found? ==> r.response.None? && OnlyGets(r.sent)
    ensures |rounds| > 0 ==> |r.sent| > 0 && r.sent[0] == Sent(c, CategoriesPath(c), map[])
  {
    SearchConcludes(c, balance, rounds);
    var s := Search(c, balance, rounds);
    if s.end.Found? then
      var bought := PurchaseItem(c, s.end.item.id, s.end.item.nextLevel, purchase);
      BuyOutcome(s.end, bought.result, s.sent + bought.sent)
    else BuyOutcome(s.end, None, s.sent)
  }

  /**
   * findAndBuy: search, then buy the found item at its next level and return
   * the purchase answer; with no item there is no purchase and no result.
   */
  method FindAndBuy(c: Client, balance: int, rounds: seq<Round>, purchase: Response<PurchaseBody>)
    returns (end: SearchEnd, response: Option<PurchaseBody>, sent: seq<Sent>)
    ensures BuyOutcome(end, response, sent) == FindAndBuyOutcome(c, balance, rounds, purchase)
    ensures end == Search(c, balance, rounds).end && Concludes(c, balance, rounds, Search(c, balance, rounds))
    ensures end.Found? ==> !end.item.disabled && end.item.price < balance
    ensures end.Found? ==>
      (|sent| > 0 &&
       sent[|sent| - 1] == Sent(c, PurchasePath, Post(PurchaseRequestBody(c, end.item.id, end.item.nextLevel))) &&
       response == PurchaseItem(c, end.item.id, end.item.nextLevel, purchase).result)
    ensures !end.Found? ==> response.None? && OnlyGets(sent)
    ensures |rounds| > 0 ==> |sent| > 0 && sent[0] == Sent(c, CategoriesPath(c), map[])
    ensures StableCatalog(rounds) && |rounds| > |Ids(Listing(rounds[0]).value)| ==> !end.Searching?
  {
    var checked, passes;
    end, checked, sent, passes := GetAvailableItem(c, balance, rounds);
    SearchConcludes(c, balance, rounds);
    if end.Found? {
      var bought := PurchaseItem(c, end.item.id, end.item.nextLevel, purchase);
      response := bought.result;
      sent := sent + bought.sent;
    } else {
      response := None;
    }
  }
}
