/**
 Sending an offer in pages and putting it together again. `cost` is the length of an item's JSON;
 the channel is the sequence of messages the other side sent, ending where it closed or failed.
 */
module Paging {
  import opened Common
  import opened Offer

  type Cost = Item -> nat

  function PageSize(page: seq<Item>, cost: Cost): nat {
    if page == [] then 0 else PageSize(page[..|page| - 1], cost) + cost(page[|page| - 1]) + 1
  }

  function Concat(pages: seq<seq<Item>>): seq<Item> {
    if pages == [] then [] else Concat(pages[..|pages| - 1]) + pages[|pages| - 1]
  }

  predicate Fits(page: seq<Item>, cost: Cost, max: nat) {
    |page| > 1 ==> PageSize(page, cost) <= max
  }

  /** The first item of the next page would not have fitted in this one. */
  predicate Full(pages: seq<seq<Item>>, k: nat, cost: Cost, max: nat)
    requires k + 1 < |pages|
  {
    pages[k] != [] && pages[k + 1] != [] && PageSize(pages[k] + [pages[k + 1][0]], cost) > max
  }

  ghost predicate WellCut(pages: seq<seq<Item>>, cost: Cost, max: nat) {
    && (forall k | 0 <= k < |pages| :: Fits(pages[k], cost, max))
    && (forall k | 0 <= k < |pages| - 1 :: Full(pages, k, cost, max))
  }

  lemma Append(pages: seq<seq<Item>>, page: seq<Item>)
    ensures Concat(pages + [page]) == Concat(pages) + page
  {
    assert (pages + [page])[..|pages|] == pages;
  }

  /** The items read so far are in the finished pages and the one being filled. */
  ghost predicate Cutting(items: seq<Item>, pages: seq<seq<Item>>, page: seq<Item>, cost: Cost, max: nat) {
    && Concat(pages) + page == items
    && if page == [] then pages == [] else WellCut(pages + [page], cost, max)
  }

  lemma ItemGoesOn(items: seq<Item>, pages: seq<seq<Item>>, page: seq<Item>, it: Item, cost: Cost, max: nat)
    requires Cutting(items, pages, page, cost, max) && (page != [] ==> PageSize(page + [it], cost) <= max)
    ensures Cutting(items + [it], pages, page + [it], cost, max)
  {
    if page != [] {
      var before, after := pages + [page], pages + [page + [it]];
      forall k | 0 <= k < |after| ensures Fits(after[k], cost, max) {
        assert k < |pages| ==> after[k] == before[k];
      }
      forall k | 0 <= k < |after| - 1 ensures Full(after, k, cost, max) {
        assert Full(before, k, cost, max);
      }
    }
  }

  lemma PageEnds(items: seq<Item>, pages: seq<seq<Item>>, page: seq<Item>, it: Item, cost: Cost, max: nat)
    requires Cutting(items, pages, page, cost, max) && page != [] && PageSize(page + [it], cost) > max
    ensures Cutting(items + [it], pages + [page], [it], cost, max)
  {
    Append(pages, page);
    var before, after := pages + [page], pages + [page] + [[it]];
    forall k | 0 <= k < |after| - 1 ensures Full(after, k, cost, max) {
      if k < |before| - 1 {
        assert Full(before, k, cost, max);
      }
    }
  }

  lemma PageGrowsBy(page: seq<Item>, it: Item, cost: Cost)
    ensures PageSize(page + [it], cost) == PageSize(page, cost) + cost(it) + 1
  {
    assert (page + [it])[..|page|] == page;
  }

  /** The pages finished, and the one being filled when the items end. */
  method Cut(items: seq<Item>, cost: Cost, max: nat) returns (pages: seq<seq<Item>>, page: seq<Item>)
    ensures Cutting(items, pages, page, cost, max)
  {
    var size := 0;
    pages, page := [], [];
    for i := 0 to |items|
      invariant Cutting(items[..i], pages, page, cost, max) && size == PageSize(page, cost)
    {
      var it := items[i];
      assert items[..i + 1] == items[..i] + [it];
      PageGrowsBy(page, it, cost);
      PageGrowsBy([], it, cost);
      if |page| > 0 && size + cost(it) + 1 > max {
        PageEnds(items[..i], pages, page, it, cost, max);
        pages, page, size := pages + [page], [], 0;
      } else {
        ItemGoesOn(items[..i], pages, page, it, cost, max);
      }
      page, size := page + [it], size + cost(it) + 1;
    }
    assert items[..|items|] == items;
  }

  method Split(o: Offer, cost: Cost, max: nat) returns (head: Offer, rest: seq<seq<Item>>)
    ensures Concat([head.items] + rest) == o.items
    ensures WellCut([head.items] + rest, cost, max)
    ensures head == o.(items := head.items, count := if rest == [] then 0 else |o.items|)
  {
    var pages, page := Cut(o.items, cost, max);
    if |page| > 0 || |pages| == 0 {
      Append(pages, page);
      pages := pages + [page];
    }
    head, rest := o.(items := pages[0], count := if |pages| > 1 then |o.items| else 0), pages[1..];
    assert [pages[0]] + pages[1..] == pages;
  }

  // ---- The receiver ----

  predicate HeadHolds(o: Offer) {
    0 <= o.count <= MAX_OFFER_ITEMS && (o.count > 0 ==> |o.items| <= o.count)
  }

  predicate Complete(o: Offer) {
    o.count == 0 || |o.items| >= o.count
  }

  /** How many items of a page continue the numbering. */
  function Continues(have: nat, page: seq<Item>): (n: nat)
    ensures n <= |page|
    ensures forall k | 0 <= k < n :: page[k].item == have + k
    ensures n < |page| ==> page[n].item != have + n
    decreases |page|
  {
    if page == [] || page[0].item != have then 0 else 1 + Continues(have + 1, page[1..])
  }

  predicate PageHolds(o: Offer, page: seq<Item>) {
    && page != [] && 0 < o.count <= MAX_OFFER_ITEMS && |o.items| + |page| <= o.count
    && Continues(|o.items|, page) == |page|
  }

  class PagedOffer {
    var o: Offer

    constructor (o: Offer)
      ensures this.o == o
    {
      this.o := o;
    }

    /** A page refused for its numbering leaves the items before the wrong one. */
    method AddPage(page: seq<Item>) returns (ok: bool)
      modifies this
      ensures ok == PageHolds(old(o), page)
      ensures o == if page == [] || old(o.count) <= 0 || old(o.count) > MAX_OFFER_ITEMS
                      || |old(o.items)| + |page| > old(o.count)
                   then old(o)
                   else old(o).(items := old(o.items) + page[..Continues(|old(o.items)|, page)])
    {
      if |page| == 0 || o.count <= 0 || o.count > MAX_OFFER_ITEMS || |o.items| + |page| > o.count {
        return false;
      }
      for k := 0 to |page|
        invariant o == old(o).(items := old(o.items) + page[..k])
        invariant k <= Continues(|old(o.items)|, page)
      {
        if page[k].item != |o.items| {
          return false;
        }
        assert page[..k + 1] == page[..k] + [page[k]];
        o := o.(items := o.items + [page[k]]);
      }
      assert page[..|page|] == page;
      return true;
    }
  }

  /** A message read while the items are expected. */
  datatype Message = Items(transferId: string, page: seq<Item>) | Other

  datatype Received = Received(o: Result<Offer>, read: nat)

  /** The loop of ReadOffer: the offer put together and how many messages were read. */
  function Assemble(o: Offer, channel: seq<Message>): Received
    decreases |channel|
  {
    if Complete(o) then Received(Ok(o.(count := 0)), 0)
    else if channel == [] then Received(Err, 0)
    else if channel[0].Other? || channel[0].transferId != o.transferId
        || !PageHolds(o, channel[0].page) then Received(Err, 1)
    else
      var r := Assemble(o.(items := o.items + channel[0].page), channel[1..]);
      Received(r.o, r.read + 1)
  }

  method ReadOffer(first: Option<Offer>, channel: seq<Message>, lower: string -> string) returns (r: Received)
    ensures var got := if first.None? || !HeadHolds(first.value) then Received(Err, 0)
                       else Assemble(first.value, channel);
            && r.read == got.read
            && r.o == if got.o.Ok? && Valid(got.o.value, lower) then got.o else Err
  {
    if first.None? || first.value.count < 0 || first.value.count > MAX_OFFER_ITEMS
       || (first.value.count > 0 && |first.value.items| > first.value.count) {
      return Received(Err, 0);
    }
    var offer := new PagedOffer(first.value);
    var read := 0;
    assert channel[0..] == channel;
    while !Complete(offer.o)
      invariant read <= |channel|
                && Assemble(first.value, channel)
                == Received(Assemble(offer.o, channel[read..]).o, read + Assemble(offer.o, channel[read..]).read)
      decreases |channel| - read
    {
      if read == |channel| {
        return Received(Err, read);
      }
      var m := channel[read];
      if m.Other? || m.transferId != offer.o.transferId {
        return Received(Err, read + 1);
      }
      var ok := offer.AddPage(m.page);
      if !ok {
        return Received(Err, read + 1);
      }
      assert m.page[..|m.page|] == m.page && channel[read..][1..] == channel[read + 1..];
      read := read + 1;
    }
    var whole := offer.o.(count := 0);
    var ok := Validate(whole, lower);
    return Received(if ok then Ok(whole) else Err, read);
  }

  // ---- Main results ----

  /** Whatever the other side sends, the loop ends within the pages the head left room for, and
      what it gives continues the head's items by whole pages, numbered on to exactly Count. */
  lemma {:induction false} EndsWithinCount(o: Offer, channel: seq<Message>)
    requires HeadHolds(o)
    ensures var r := Assemble(o, channel);
            && r.read <= |channel| && r.read <= (if o.count == 0 then 0 else o.count - |o.items|)
            && (r.o.Ok? ==> && o.items <= r.o.value.items && r.o.value == o.(items := r.o.value.items, count := 0)
                            && |r.o.value.items| == (if o.count == 0 then |o.items| else o.count)
                            && forall k | |o.items| <= k < |r.o.value.items| :: r.o.value.items[k].item == k)
    decreases |channel|
  {
    if !Complete(o) && channel != [] && channel[0].Items? && channel[0].transferId == o.transferId
        && PageHolds(o, channel[0].page) {
      EndsWithinCount(o.(items := o.items + channel[0].page), channel[1..]);
    }
  }

  predicate Numbered(items: seq<Item>) {
    forall k | 0 <= k < |items| :: items[k].item == k
  }

  function Messages(transferId: string, pages: seq<seq<Item>>): seq<Message> {
    seq(|pages|, k requires 0 <= k < |pages| => Items(transferId, pages[k]))
  }

  lemma {:induction false} ContinuesAll(have: nat, page: seq<Item>)
    requires forall k | 0 <= k < |page| :: page[k].item == have + k
    ensures Continues(have, page) == |page|
    decreases |page|
  {
    if page != [] {
      ContinuesAll(have + 1, page[1..]);
    }
  }

  lemma {:induction false} ConcatFirst(pages: seq<seq<Item>>)
    requires pages != []
    ensures Concat(pages) == pages[0] + Concat(pages[1..])
  {
    if |pages| == 1 {
      assert pages[..0] == [] && pages[1..] == [];
    } else {
      ConcatFirst(pages[..|pages| - 1]);
      assert pages[..|pages| - 1][1..] == pages[1..][..|pages| - 2];
    }
  }

  /** From a head and any number of pages still to come: exactly those pages are read, the offer
      is complete only after the last of them, and it is the one that was cut. */
  lemma {:induction false} AssemblesPages(o: Offer, pages: seq<seq<Item>>, more: seq<Message>)
    requires Numbered(o.items + Concat(pages)) && (forall p <- pages :: p != [])
    requires o.count == |o.items| + |Concat(pages)| && 0 < o.count <= MAX_OFFER_ITEMS
    ensures Assemble(o, Messages(o.transferId, pages) + more)
            == Received(Ok(o.(items := o.items + Concat(pages), count := 0)), |pages|)
    ensures Complete(o) <==> pages == []
    decreases |pages|
  {
    var channel := Messages(o.transferId, pages) + more;
    if pages == [] {
      assert o.items + Concat(pages) == o.items;
    } else {
      ConcatFirst(pages);
      var all := o.items + Concat(pages);
      var o' := o.(items := o.items + pages[0]);
      assert o'.items + Concat(pages[1..]) == all;
      forall k | 0 <= k < |pages[0]| ensures pages[0][k].item == |o.items| + k {
        assert all[|o.items| + k] == pages[0][k];
      }
      ContinuesAll(|o.items|, pages[0]);
      assert pages[0] in pages;
      forall p | p in pages[1..] ensures p != [] {
        assert p in pages;
      }
      AssemblesPages(o', pages[1..], more);
      assert channel[0] == Items(o.transferId, pages[0]);
      assert channel[1..] == Messages(o.transferId, pages[1..]) + more;
    }
  }

  function PagesIn(channel: seq<Message>): seq<seq<Item>> {
    seq(|channel|, k requires 0 <= k < |channel| => if channel[k].Items? then channel[k].page else [])
  }

  predicate AllPages(transferId: string, messages: seq<Message>) {
    forall k | 0 <= k < |messages| ::
      messages[k].Items? && messages[k].transferId == transferId && messages[k].page != []
  }

  /** The items go on with the numbering, to exactly Count. */
  predicate NumbersOn(have: nat, items: seq<Item>, count: int) {
    have + |items| == count && forall k | 0 <= k < |items| :: items[k].item == have + k
  }

  /** The channel begins with n pages of the head's transfer, none empty, that number its items on to
      exactly Count. */
  predicate Continued(o: Offer, channel: seq<Message>, n: nat) {
    && n <= |channel| && AllPages(o.transferId, channel[..n])
    && NumbersOn(|o.items|, Concat(PagesIn(channel[..n])), o.count)
  }

  lemma {:induction false} NoneEmpty(pages: seq<seq<Item>>)
    requires forall k | 0 <= k < |pages| :: pages[k] != []
    ensures |Concat(pages)| >= |pages|
  {
    if pages != [] {
      NoneEmpty(pages[..|pages| - 1]);
    }
  }

  lemma FirstPage(channel: seq<Message>, n: nat)
    requires 0 < n <= |channel| && channel[0].Items?
    ensures Concat(PagesIn(channel[..n])) == channel[0].page + Concat(PagesIn(channel[1..][..n - 1]))
  {
    var pages := PagesIn(channel[..n]);
    ConcatFirst(pages);
    assert pages[1..] == PagesIn(channel[1..][..n - 1]);
  }

  lemma NumbersFirst(have: nat, page: seq<Item>, rest: seq<Item>, count: int)
    ensures NumbersOn(have, page + rest, count)
            <==> have + |page| <= count && Continues(have, page) == |page| && NumbersOn(have + |page|, rest, count)
  {
    var all := page + rest;
    assert forall k | 0 <= k < |rest| :: all[|page| + k] == rest[k];
    if NumbersOn(have, all, count) {
      assert forall k | 0 <= k < |page| :: all[k] == page[k];
      ContinuesAll(have, page);
    }
  }

  lemma PagesFirst(transferId: string, channel: seq<Message>, n: nat)
    requires 0 < n <= |channel|
    ensures AllPages(transferId, channel[..n])
            <==> && channel[0].Items? && channel[0].transferId == transferId && channel[0].page != []
                 && AllPages(transferId, channel[1..][..n - 1])
  {
    var all, rest := channel[..n], channel[1..][..n - 1];
    assert all[0] == channel[0] && forall k | 0 <= k < n - 1 :: rest[k] == all[k + 1];
    assert forall k | 1 <= k < n :: all[k] == rest[k - 1];
  }

  lemma ContinuedFirst(o: Offer, channel: seq<Message>, n: nat)
    requires HeadHolds(o) && !Complete(o) && channel != []
    ensures Continued(o, channel, n)
            <==> && n > 0 && channel[0].Items? && channel[0].transferId == o.transferId && PageHolds(o, channel[0].page)
                 && Continued(o.(items := o.items + channel[0].page), channel[1..], n - 1)
  {
    if 0 < n <= |channel| && channel[0].Items? {
      FirstPage(channel, n);
      PagesFirst(o.transferId, channel, n);
      NumbersFirst(|o.items|, channel[0].page, Concat(PagesIn(channel[1..][..n - 1])), o.count);
      hide Concat, PagesIn, AllPages, NumbersOn;
    }
  }

  /** The offer with the items of the first n messages. */
  function PutTogether(o: Offer, channel: seq<Message>, n: nat): Offer
    requires n <= |channel|
  {
    o.(items := o.items + Concat(PagesIn(channel[..n])), count := 0)
  }

  lemma PutFirst(o: Offer, channel: seq<Message>, n: nat)
    requires 0 < n <= |channel| && channel[0].Items?
    ensures PutTogether(o, channel, n) == PutTogether(o.(items := o.items + channel[0].page), channel[1..], n - 1)
  {
    FirstPage(channel, n);
    var rest := Concat(PagesIn(channel[1..][..n - 1]));
    assert o.items + (channel[0].page + rest) == o.items + channel[0].page + rest;
  }

  lemma NothingToRead(o: Offer, channel: seq<Message>, n: nat)
    requires HeadHolds(o) && o.count > 0 && (Complete(o) || channel == [])
    ensures Continued(o, channel, n) <==> Complete(o) && n == 0
    ensures PutTogether(o, channel, 0) == o.(count := 0)
  {
    if Continued(o, channel, n) {
      NoneEmpty(PagesIn(channel[..n]));
    }
    assert o.items + Concat(PagesIn(channel[..0])) == o.items;
  }

  /** The loop gives an offer exactly when the channel begins with such pages; it has then read just
      these, and gives their items. */
  lemma {:induction false} AssembledExactly(o: Offer, channel: seq<Message>, n: nat)
    requires HeadHolds(o) && o.count > 0
    ensures Continued(o, channel, n) <==> Assemble(o, channel).o.Ok? && Assemble(o, channel).read == n
    ensures Continued(o, channel, n) ==> n <= |channel| && Assemble(o, channel).o == Ok(PutTogether(o, channel, n))
    decreases |channel|
  {
    if Complete(o) || channel == [] {
      NothingToRead(o, channel, n);
    } else {
      ContinuedFirst(o, channel, n);
      if n > 0 && channel[0].Items? && channel[0].transferId == o.transferId && PageHolds(o, channel[0].page) {
        AssembledExactly(o.(items := o.items + channel[0].page), channel[1..], n - 1);
        if n <= |channel| {
          PutFirst(o, channel, n);
        }
      }
      hide Continued, PutTogether, HeadHolds;
    }
  }

  /** Any cut of a numbered offer that starts with its head, and so Split's, is put together into
      exactly that offer, whatever follows on the channel. */
  lemma PagingRoundTrip(o: Offer, head: Offer, rest: seq<seq<Item>>, cost: Cost, max: nat, more: seq<Message>)
    requires Numbered(o.items) && |o.items| <= MAX_OFFER_ITEMS
    requires Concat([head.items] + rest) == o.items && WellCut([head.items] + rest, cost, max)
    requires head == o.(items := head.items, count := if rest == [] then 0 else |o.items|)
    ensures HeadHolds(head)
    ensures Assemble(head, Messages(o.transferId, rest) + more) == Received(Ok(o.(count := 0)), |rest|)
  {
    var pages := [head.items] + rest;
    ConcatFirst(pages);
    assert pages[1..] == rest;
    if rest == [] {
      assert head.items + Concat(rest) == head.items;
    } else {
      forall p | p in rest ensures p != [] {
        var k :| 0 <= k < |rest| && rest[k] == p;
        assert Full(pages, k, cost, max) && pages[k + 1] == p;
      }
      assert Full(pages, 0, cost, max);
      AssemblesPages(head, rest, more);
    }
  }

  /** The sender's messages and the receiver's loop, one after the other: the receiver's answer is
      its own check of exactly the offer that was cut. */
  method SendAndReceive(o: Offer, cost: Cost, max: nat, more: seq<Message>, lower: string -> string)
      returns (r: Received)
    requires Numbered(o.items) && |o.items| <= MAX_OFFER_ITEMS && o.count == 0
    ensures r.o == if Valid(o, lower) then Ok(o) else Err
  {
    var head, rest := Split(o, cost, max);
    PagingRoundTrip(o, head, rest, cost, max, more);
    r := ReadOffer(Some(head), Messages(o.transferId, rest) + more, lower);
  }
}
