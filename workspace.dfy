/** Accepting queued questions into the card list: `addSingleBatchItem`
    (popup.js:336-361) and `addAllHighConfidence` (popup.js:438-474). The
    global `state` becomes a `Workspace` object holding `cards` and
    `batchQueue`; the "force add duplicates" checkbox is a parameter,
    `uid()` draws from the `nextId` counter and `now()` is a parameter. */
module Acceptance {
  import opened Text
  import opened Cards
  import opened Parser
  import opened Batch

  /** `buildCard(item.parsed.front, item.parsed.back, item.parsed.options,
      item.parsed.correctIndex)`, as popup.js:348 and popup.js:459 call it. */
  function ItemCard(item: BatchItem, id: nat, now: int): (r: Option<Card>)
    ensures r.None? <==> Rejected(item.parsed.front, item.parsed.back, item.parsed.options, item.parsed.correctIndex)
    ensures r.Some? ==> WellFormed(r.value) && r.value.id == id && r.value.content == item.parsed.front
  {
    BuildCard(item.parsed.front, item.parsed.back, item.parsed.options, item.parsed.correctIndex, id, now)
  }

  /** Whether the duplicate check blocks `item` against `cards`: only when
      forcing is off and some card duplicates its stem. */
  predicate Blocked(item: BatchItem, cards: seq<Card>, forceAddDuplicates: bool) {
    !forceAddDuplicates && FirstDuplicate(item.parsed.front, cards).Some?
  }

  // ---- addAllHighConfidence, popup.js:438-474 ----

  /** The variables of the `forEach` at popup.js:448-467, with `state.cards`
      and the id counter. */
  datatype Pass = Pass(cards: seq<Card>, remaining: seq<BatchItem>, added: nat, skipped: nat, nextId: nat)

  /** One item of that loop: a low-confidence item stays for review, a
      duplicate of a card already in the list (including one added earlier
      in the same pass) is skipped, an item `buildCard` rejects stays for
      review, and anything else becomes a card. */
  function AcceptStep(p: Pass, item: BatchItem, forceAddDuplicates: bool, now: int): Pass {
    if item.isLowConfidence then p.(remaining := p.remaining + [item])
    else if Blocked(item, p.cards, forceAddDuplicates) then p.(skipped := p.skipped + 1)
    else
      match ItemCard(item, p.nextId, now)
      case None => p.(remaining := p.remaining + [item])
      case Some(card) => p.(cards := p.cards + [card], added := p.added + 1, nextId := p.nextId + 1)
  }

  /** The loop run over the first `n` items of `queue`. */
  function AcceptUpTo(start: Pass, queue: seq<BatchItem>, n: nat, forceAddDuplicates: bool, now: int): Pass
    requires n <= |queue|
  {
    if n == 0 then start
    else AcceptStep(AcceptUpTo(start, queue, n - 1, forceAddDuplicates, now), queue[n - 1], forceAddDuplicates, now)
  }

  /** The whole pass over `queue`, from the given cards and id counter. */
  function AcceptAll(cards: seq<Card>, queue: seq<BatchItem>, nextId: nat, forceAddDuplicates: bool, now: int): Pass {
    AcceptUpTo(Pass(cards, [], 0, 0, nextId), queue, |queue|, forceAddDuplicates, now)
  }

  /** The low-confidence items of a queue, in order. */
  function LowItems(queue: seq<BatchItem>): seq<BatchItem> {
    if |queue| == 0 then []
    else (if queue[0].isLowConfidence then [queue[0]] else []) + LowItems(queue[1..])
  }

  lemma {:induction false} LowItemsSnoc(queue: seq<BatchItem>, item: BatchItem)
    ensures LowItems(queue + [item]) == LowItems(queue) + (if item.isLowConfidence then [item] else [])
  {
    if |queue| == 0 {
      assert queue + [item] == [item];
      assert LowItems([item]) == (if item.isLowConfidence then [item] else []) + LowItems([]);
    } else {
      var head := if queue[0].isLowConfidence then [queue[0]] else [];
      var tail := if item.isLowConfidence then [item] else [];
      assert (queue + [item])[1..] == queue[1..] + [item];
      assert LowItems(queue + [item]) == head + LowItems(queue[1..] + [item]);
      LowItemsSnoc(queue[1..], item);
      assert LowItems(queue) == head + LowItems(queue[1..]);
      assert head + (LowItems(queue[1..]) + tail) == (head + LowItems(queue[1..])) + tail;
    }
  }

  /** The card side of what one pass keeps invariant: earlier cards are an
      untouched prefix, and each added card is well formed, takes the next
      id and (unless forcing is on) duplicates no card before it. */
  predicate CardsShape(cards: seq<Card>, nextId: nat, forceAddDuplicates: bool, p: Pass) {
    && |p.cards| == |cards| + p.added
    && p.cards[..|cards|] == cards
    && p.nextId == nextId + p.added
    && Numbered(p.cards, |cards|, nextId)
    && (!forceAddDuplicates ==> NoneDuplicated(p.cards, |cards|))
  }

  /** The cards from position `lo` on are well formed and numbered from
      `nextId`. */
  predicate Numbered(cs: seq<Card>, lo: nat, nextId: nat) {
    forall k :: lo <= k < |cs| ==> WellFormed(cs[k]) && cs[k].id == nextId + (k - lo)
  }

  /** No card from position `lo` on duplicates a card before it. */
  predicate NoneDuplicated(cs: seq<Card>, lo: nat) {
    forall k :: lo <= k < |cs| ==> FirstDuplicate(cs[k].content, cs[..k]).None?
  }

  /** The queue side, after the first `n` items: the low-confidence items
      all stay, in order, and every other item left behind is one
      `buildCard` rejects. */
  predicate QueueShape(queue: seq<BatchItem>, n: nat, remaining: seq<BatchItem>)
    requires n <= |queue|
  {
    && LowItems(remaining) == LowItems(queue[..n])
    && (forall item :: item in remaining ==> item in queue[..n])
    && (forall item :: item in remaining && !item.isLowConfidence ==>
          Rejected(item.parsed.front, item.parsed.back, item.parsed.options, item.parsed.correctIndex))
  }

  /** Everything one pass keeps invariant; every item is counted once. */
  predicate PassShape(cards: seq<Card>, queue: seq<BatchItem>, nextId: nat, forceAddDuplicates: bool, n: nat, p: Pass)
    requires n <= |queue|
  {
    && CardsShape(cards, nextId, forceAddDuplicates, p)
    && QueueShape(queue, n, p.remaining)
    && p.added + p.skipped + |p.remaining| == n
  }

  /** A card that duplicates none before it can be appended to a run of
      cards of which the same holds from `lo` on. */
  lemma FreshAppend(cs: seq<Card>, lo: nat, card: Card)
    requires lo <= |cs| && NoneDuplicated(cs, lo)
    requires FirstDuplicate(card.content, cs).None?
    ensures NoneDuplicated(cs + [card], lo)
  {
    forall k | lo <= k < |cs + [card]|
      ensures FirstDuplicate((cs + [card])[k].content, (cs + [card])[..k]).None?
    {
      if k < |cs| {
        assert (cs + [card])[..k] == cs[..k];
      } else {
        assert (cs + [card])[..k] == cs;
      }
    }
  }

  /** Appending a well-formed card with the next id to well-formed cards
      numbered from `nextId` keeps them so. */
  lemma NumberedAppend(cs: seq<Card>, lo: nat, nextId: nat, card: Card)
    requires lo <= |cs| && Numbered(cs, lo, nextId)
    requires WellFormed(card) && card.id == nextId + (|cs| - lo)
    ensures Numbered(cs + [card], lo, nextId)
  {
    forall k | lo <= k < |cs + [card]|
      ensures WellFormed((cs + [card])[k]) && (cs + [card])[k].id == nextId + (k - lo)
    {
      if k < |cs| {
        assert (cs + [card])[k] == cs[k];
      }
    }
  }

  /** Appending one well-formed card that takes the next id, and that
      duplicates no card before it unless forcing is on, keeps `CardsShape`. */
  lemma CardsAppend(cards: seq<Card>, nextId: nat, forceAddDuplicates: bool, p: Pass, card: Card)
    requires CardsShape(cards, nextId, forceAddDuplicates, p)
    requires WellFormed(card) && card.id == p.nextId
    requires !forceAddDuplicates ==> FirstDuplicate(card.content, p.cards).None?
    ensures CardsShape(cards, nextId, forceAddDuplicates, p.(cards := p.cards + [card], added := p.added + 1, nextId := p.nextId + 1))
  {
    assert (p.cards + [card])[..|cards|] == p.cards[..|cards|];
    NumberedAppend(p.cards, |cards|, nextId, card);
    if !forceAddDuplicates {
      FreshAppend(p.cards, |cards|, card);
    }
  }

  /** One step keeps `CardsShape`. */
  lemma CardsStep(cards: seq<Card>, nextId: nat, forceAddDuplicates: bool, now: int, p: Pass, item: BatchItem)
    requires CardsShape(cards, nextId, forceAddDuplicates, p)
    ensures CardsShape(cards, nextId, forceAddDuplicates, AcceptStep(p, item, forceAddDuplicates, now))
  {
    if !item.isLowConfidence && !Blocked(item, p.cards, forceAddDuplicates) {
      var built := ItemCard(item, p.nextId, now);
      if built.Some? {
        var card := built.value;
        assert AcceptStep(p, item, forceAddDuplicates, now) == p.(cards := p.cards + [card], added := p.added + 1, nextId := p.nextId + 1);
        CardsAppend(cards, nextId, forceAddDuplicates, p, card);
      }
    }
  }

  /** What one step does to the remaining items: the item is either kept,
      being low-confidence or rejected by `buildCard`, or it leaves, being
      high-confidence. */
  lemma StepRemaining(p: Pass, item: BatchItem, forceAddDuplicates: bool, now: int)
    ensures var q := AcceptStep(p, item, forceAddDuplicates, now);
      || (q.remaining == p.remaining + [item]
          && (item.isLowConfidence || Rejected(item.parsed.front, item.parsed.back, item.parsed.options, item.parsed.correctIndex)))
      || (q.remaining == p.remaining && !item.isLowConfidence)
  {
  }

  /** Item `n - 1` keeps `QueueShape`, whichever way it goes. */
  lemma QueueStep(queue: seq<BatchItem>, n: nat, remaining: seq<BatchItem>, rem: seq<BatchItem>)
    requires 0 < n <= |queue| && QueueShape(queue, n - 1, remaining)
    requires var item := queue[n - 1];
      || (rem == remaining + [item]
          && (item.isLowConfidence || Rejected(item.parsed.front, item.parsed.back, item.parsed.options, item.parsed.correctIndex)))
      || (rem == remaining && !item.isLowConfidence)
    ensures QueueShape(queue, n, rem)
  {
    var item := queue[n - 1];
    var pre, pre' := queue[..n - 1], queue[..n];
    assert pre' == pre + [item];
    LowItemsSnoc(pre, item);
    if rem == remaining + [item] {
      LowItemsSnoc(remaining, item);
    }
  }

  /** Item `n - 1` of the pass keeps `PassShape`. */
  lemma AcceptStepShape(cards: seq<Card>, queue: seq<BatchItem>, nextId: nat, forceAddDuplicates: bool, now: int, n: nat, p: Pass)
    requires 0 < n <= |queue| && PassShape(cards, queue, nextId, forceAddDuplicates, n - 1, p)
    ensures PassShape(cards, queue, nextId, forceAddDuplicates, n, AcceptStep(p, queue[n - 1], forceAddDuplicates, now))
  {
    CardsStep(cards, nextId, forceAddDuplicates, now, p, queue[n - 1]);
    StepRemaining(p, queue[n - 1], forceAddDuplicates, now);
    QueueStep(queue, n, p.remaining, AcceptStep(p, queue[n - 1], forceAddDuplicates, now).remaining);
  }

  /** `PassShape` holds after any number of items. */
  lemma {:induction false} AcceptUpToShape(cards: seq<Card>, queue: seq<BatchItem>, nextId: nat, forceAddDuplicates: bool, now: int, n: nat)
    requires n <= |queue|
    ensures PassShape(cards, queue, nextId, forceAddDuplicates, n, AcceptUpTo(Pass(cards, [], 0, 0, nextId), queue, n, forceAddDuplicates, now))
  {
    if n == 0 {
      PassShapeStart(cards, queue, nextId, forceAddDuplicates);
    } else {
      var prev := AcceptUpTo(Pass(cards, [], 0, 0, nextId), queue, n - 1, forceAddDuplicates, now);
      AcceptUpToShape(cards, queue, nextId, forceAddDuplicates, now, n - 1);
      AcceptStepShape(cards, queue, nextId, forceAddDuplicates, now, n, prev);
      assert AcceptUpTo(Pass(cards, [], 0, 0, nextId), queue, n, forceAddDuplicates, now) == AcceptStep(prev, queue[n - 1], forceAddDuplicates, now);
    }
  }

  /** `PassShape` holds before the first item. */
  lemma PassShapeStart(cards: seq<Card>, queue: seq<BatchItem>, nextId: nat, forceAddDuplicates: bool)
    ensures PassShape(cards, queue, nextId, forceAddDuplicates, 0, Pass(cards, [], 0, 0, nextId))
  {
    assert cards[..|cards|] == cards;
  }

  /** What `addAllHighConfidence` guarantees of the whole pass: the earlier
      cards stay an unchanged prefix, every added card is well formed and
      (unless forcing is on) duplicates no card before it, every
      low-confidence item remains in the queue in its relative order, any
      other remaining item is one `buildCard` rejects, and added + skipped
      + remaining equals the length of the queue. */
  lemma AcceptAllShape(cards: seq<Card>, queue: seq<BatchItem>, nextId: nat, forceAddDuplicates: bool, now: int)
    ensures var r := AcceptAll(cards, queue, nextId, forceAddDuplicates, now);
      && |r.cards| == |cards| + r.added
      && r.cards[..|cards|] == cards
      && (forall k :: |cards| <= k < |r.cards| ==> WellFormed(r.cards[k]) && r.cards[k].id == nextId + (k - |cards|))
      && (forall k :: |cards| <= k < |r.cards| && !forceAddDuplicates ==> FirstDuplicate(r.cards[k].content, r.cards[..k]).None?)
      && LowItems(r.remaining) == LowItems(queue)
      && (forall item :: item in r.remaining ==> item in queue)
      && (forall item :: item in r.remaining && !item.isLowConfidence ==>
            Rejected(item.parsed.front, item.parsed.back, item.parsed.options, item.parsed.correctIndex))
      && r.added + r.skipped + |r.remaining| == |queue|
  {
    AcceptUpToShape(cards, queue, nextId, forceAddDuplicates, now, |queue|);
    assert queue[..|queue|] == queue;
  }

  /** `b` begins with `a`. */
  predicate Extends(a: seq<Card>, b: seq<Card>) {
    |a| <= |b| && b[..|a|] == a
  }

  /** One step leaves the card list as it is or appends one card. */
  lemma StepCards(p: Pass, item: BatchItem, forceAddDuplicates: bool, now: int)
    ensures var q := AcceptStep(p, item, forceAddDuplicates, now);
      q.cards == p.cards || (ItemCard(item, p.nextId, now).Some? && q.cards == p.cards + [ItemCard(item, p.nextId, now).value])
  {
  }

  /** One step only ever appends to the card list. */
  lemma StepExtends(p: Pass, item: BatchItem, forceAddDuplicates: bool, now: int)
    ensures Extends(p.cards, AcceptStep(p, item, forceAddDuplicates, now).cards)
  {
    StepCards(p, item, forceAddDuplicates, now);
    ExtendsSelf(p.cards);
    if ItemCard(item, p.nextId, now).Some? {
      ExtendsAppend(p.cards, ItemCard(item, p.nextId, now).value);
    }
  }

  lemma ExtendsAppend(a: seq<Card>, c: Card)
    ensures Extends(a, a + [c])
  {
    assert (a + [c])[..|a|] == a;
  }

  lemma ExtendsSelf(a: seq<Card>)
    ensures Extends(a, a)
  {
    assert a[..|a|] == a;
  }

  lemma ExtendsTrans(a: seq<Card>, b: seq<Card>, c: seq<Card>)
    requires Extends(a, b) && Extends(b, c)
    ensures Extends(a, c)
  {
    assert c[..|a|] == c[..|b|][..|a|];
  }

  /** Item `i` only ever appends to the cards present at its turn. */
  lemma UpToStepExtends(start: Pass, queue: seq<BatchItem>, i: nat, forceAddDuplicates: bool, now: int)
    requires i < |queue|
    ensures Extends(AcceptUpTo(start, queue, i, forceAddDuplicates, now).cards, AcceptUpTo(start, queue, i + 1, forceAddDuplicates, now).cards)
  {
    StepExtends(AcceptUpTo(start, queue, i, forceAddDuplicates, now), queue[i], forceAddDuplicates, now);
  }

  /** If item `k + 1`'s cards stay up to item `m`, so do item `k`'s. */
  lemma ExtendsBack(start: Pass, queue: seq<BatchItem>, k: nat, m: nat, forceAddDuplicates: bool, now: int)
    requires k < m <= |queue|
    requires Extends(AcceptUpTo(start, queue, k + 1, forceAddDuplicates, now).cards, AcceptUpTo(start, queue, m, forceAddDuplicates, now).cards)
    ensures Extends(AcceptUpTo(start, queue, k, forceAddDuplicates, now).cards, AcceptUpTo(start, queue, m, forceAddDuplicates, now).cards)
  {
    UpToStepExtends(start, queue, k, forceAddDuplicates, now);
    ExtendsTrans(AcceptUpTo(start, queue, k, forceAddDuplicates, now).cards,
                 AcceptUpTo(start, queue, k + 1, forceAddDuplicates, now).cards,
                 AcceptUpTo(start, queue, m, forceAddDuplicates, now).cards);
  }

  /** The cards present at item `k`'s turn stay, as a prefix, up to item `m`. */
  lemma {:induction false} UpToExtends(start: Pass, queue: seq<BatchItem>, k: nat, m: nat, forceAddDuplicates: bool, now: int)
    requires k <= m <= |queue|
    ensures Extends(AcceptUpTo(start, queue, k, forceAddDuplicates, now).cards, AcceptUpTo(start, queue, m, forceAddDuplicates, now).cards)
    decreases m - k
  {
    if k == m {
      ExtendsSelf(AcceptUpTo(start, queue, m, forceAddDuplicates, now).cards);
    } else {
      UpToExtends(start, queue, k + 1, m, forceAddDuplicates, now);
      ExtendsBack(start, queue, k, m, forceAddDuplicates, now);
    }
  }

  /** What one step does with its item, each effect in both directions. */
  lemma StepFate(p: Pass, item: BatchItem, forceAddDuplicates: bool, now: int)
    ensures var q := AcceptStep(p, item, forceAddDuplicates, now);
      && (q.skipped == p.skipped + 1 <==> !item.isLowConfidence && Blocked(item, p.cards, forceAddDuplicates))
      && (q.added == p.added + 1 <==>
            !item.isLowConfidence && !Blocked(item, p.cards, forceAddDuplicates) && ItemCard(item, p.nextId, now).Some?)
      && (q.added == p.added + 1 ==> q.cards == p.cards + [ItemCard(item, p.nextId, now).value])
      && (q.remaining == p.remaining + [item] <==>
            item.isLowConfidence || (!Blocked(item, p.cards, forceAddDuplicates) && ItemCard(item, p.nextId, now).None?))
  {
  }

  /** What became of item `k` of the queue, judged against the cards present
      at its turn (those already listed and those added earlier in the same
      pass): it was skipped exactly when it is high-confidence and
      duplicates one of them; it was added exactly when it is
      high-confidence, duplicates none of them (or forcing is on) and
      `buildCard` accepts it; it stayed in the queue exactly when it is
      low-confidence or, not blocked, `buildCard` rejects it. */
  lemma AcceptTurn(cards: seq<Card>, queue: seq<BatchItem>, nextId: nat, forceAddDuplicates: bool, now: int, k: nat)
    requires k < |queue|
    ensures var start := Pass(cards, [], 0, 0, nextId);
      var before := AcceptUpTo(start, queue, k, forceAddDuplicates, now);
      var after := AcceptUpTo(start, queue, k + 1, forceAddDuplicates, now);
      var item := queue[k];
      && (after.skipped == before.skipped + 1 <==> !item.isLowConfidence && Blocked(item, before.cards, forceAddDuplicates))
      && (after.added == before.added + 1 <==>
            !item.isLowConfidence && !Blocked(item, before.cards, forceAddDuplicates) && ItemCard(item, before.nextId, now).Some?)
      && (after.remaining == before.remaining + [item] <==>
            item.isLowConfidence || (!Blocked(item, before.cards, forceAddDuplicates) && ItemCard(item, before.nextId, now).None?))
  {
    var start := Pass(cards, [], 0, 0, nextId);
    StepFate(AcceptUpTo(start, queue, k, forceAddDuplicates, now), queue[k], forceAddDuplicates, now);
  }

  /** An item added at its turn leaves its card, as `buildCard` made it, at
      the place it took in the final list. */
  lemma AcceptTurnKept(cards: seq<Card>, queue: seq<BatchItem>, nextId: nat, forceAddDuplicates: bool, now: int, k: nat)
    requires k < |queue|
    ensures var start := Pass(cards, [], 0, 0, nextId);
      var before := AcceptUpTo(start, queue, k, forceAddDuplicates, now);
      var after := AcceptUpTo(start, queue, k + 1, forceAddDuplicates, now);
      var r := AcceptAll(cards, queue, nextId, forceAddDuplicates, now);
      after.added == before.added + 1 ==>
        |before.cards| < |r.cards| && r.cards[|before.cards|] == ItemCard(queue[k], before.nextId, now).value
  {
    var start := Pass(cards, [], 0, 0, nextId);
    var before := AcceptUpTo(start, queue, k, forceAddDuplicates, now);
    var after := AcceptUpTo(start, queue, k + 1, forceAddDuplicates, now);
    StepFate(before, queue[k], forceAddDuplicates, now);
    UpToExtends(start, queue, k + 1, |queue|, forceAddDuplicates, now);
    if after.added == before.added + 1 {
      var r := AcceptAll(cards, queue, nextId, forceAddDuplicates, now);
      assert after.cards[|before.cards|] == ItemCard(queue[k], before.nextId, now).value;
      assert r.cards[..|after.cards|] == after.cards;
    }
  }

  /** A queue of only low-confidence items is left as it is, and nothing
      is added. */
  lemma {:induction false} AcceptAllLowOnly(cards: seq<Card>, queue: seq<BatchItem>, nextId: nat, forceAddDuplicates: bool, now: int, n: nat)
    requires n <= |queue|
    requires forall item :: item in queue ==> item.isLowConfidence
    ensures AcceptUpTo(Pass(cards, [], 0, 0, nextId), queue, n, forceAddDuplicates, now) == Pass(cards, queue[..n], 0, 0, nextId)
  {
    if n > 0 {
      AcceptAllLowOnly(cards, queue, nextId, forceAddDuplicates, now, n - 1);
      assert queue[n - 1] in queue;
      assert queue[..n] == queue[..n - 1] + [queue[n - 1]];
    }
  }

  // ---- addSingleBatchItem, popup.js:336-361 ----

  /** `state.batchQueue.find((entry) => entry.id === itemId)`. */
  function FindItem(queue: seq<BatchItem>, itemId: nat): (r: Option<BatchItem>)
    ensures r.Some? ==> r.value in queue && r.value.id == itemId
    ensures r.None? <==> forall item :: item in queue ==> item.id != itemId
  {
    if |queue| == 0 then None
    else if queue[0].id == itemId then Some(queue[0])
    else FindItem(queue[1..], itemId)
  }

  /** `state.batchQueue.filter((entry) => entry.id !== itemId)`. */
  function RemoveId(queue: seq<BatchItem>, itemId: nat): (r: seq<BatchItem>)
    ensures forall item :: item in r <==> item in queue && item.id != itemId
    ensures |r| <= |queue|
    ensures (exists item :: item in queue && item.id == itemId) ==> |r| < |queue|
  {
    if |queue| == 0 then []
    else (if queue[0].id != itemId then [queue[0]] else []) + RemoveId(queue[1..], itemId)
  }

  /** `filter` keeps the order: removing from a concatenation removes from
      each part. */
  lemma {:induction false} RemoveIdConcat(a: seq<BatchItem>, b: seq<BatchItem>, itemId: nat)
    ensures RemoveId(a + b, itemId) == RemoveId(a, itemId) + RemoveId(b, itemId)
  {
    if |a| == 0 {
      assert a + b == b;
    } else {
      assert (a + b)[0] == a[0] && (a + b)[1..] == a[1..] + b;
      RemoveIdConcat(a[1..], b, itemId);
    }
  }

  /** Which message `addSingleBatchItem` ends with. */
  datatype SingleOutcome = UnknownItem | DuplicateBlocked | NeedsReview | Added

  /** The effect of `addSingleBatchItem(itemId)` on the card list, the queue
      and the id counter. */
  datatype Single = Single(outcome: SingleOutcome, cards: seq<Card>, queue: seq<BatchItem>, nextId: nat)

  /** `addSingleBatchItem`, popup.js:336-361, as a value: an unknown id
      changes nothing; a duplicate leaves the cards and drops the item from
      the queue; an item `buildCard` rejects leaves both as they were (it is
      loaded into the editor instead); otherwise its card is appended and
      the item leaves the queue. */
  function AddSingle(cards: seq<Card>, queue: seq<BatchItem>, nextId: nat, itemId: nat, forceAddDuplicates: bool, now: int): Single {
    match FindItem(queue, itemId)
    case None => Single(UnknownItem, cards, queue, nextId)
    case Some(item) =>
      if Blocked(item, cards, forceAddDuplicates) then Single(DuplicateBlocked, cards, RemoveId(queue, itemId), nextId)
      else
        match ItemCard(item, nextId, now)
        case None => Single(NeedsReview, cards, queue, nextId)
        case Some(card) => Single(Added, cards + [card], RemoveId(queue, itemId), nextId + 1)
  }

  /** Each outcome of `AddSingle` and what it does: only `Added` grows the
      card list, by exactly one well-formed card for a queued item with the
      given id, and whenever the queue changes it loses exactly the entries
      with that id. */
  lemma AddSingleOutcomes(cards: seq<Card>, queue: seq<BatchItem>, nextId: nat, itemId: nat, forceAddDuplicates: bool, now: int)
    ensures var r := AddSingle(cards, queue, nextId, itemId, forceAddDuplicates, now);
      && (r.outcome == UnknownItem <==> forall item :: item in queue ==> item.id != itemId)
      && (r.outcome == UnknownItem || r.outcome == NeedsReview ==> r.cards == cards && r.queue == queue && r.nextId == nextId)
      && (r.outcome == DuplicateBlocked ==> !forceAddDuplicates && r.cards == cards && r.nextId == nextId)
      && (r.outcome == DuplicateBlocked || r.outcome == Added ==>
            (forall item :: item in r.queue <==> item in queue && item.id != itemId) && |r.queue| < |queue|)
      && (r.outcome == Added ==>
            && |r.cards| == |cards| + 1 && r.cards[..|cards|] == cards && r.nextId == nextId + 1
            && WellFormed(r.cards[|cards|]) && r.cards[|cards|].id == nextId
            && exists item :: item in queue && item.id == itemId && r.cards[|cards|].content == item.parsed.front)
      && (r.outcome == Added && !forceAddDuplicates ==> FirstDuplicate(r.cards[|cards|].content, cards).None?)
  {
    var found := FindItem(queue, itemId);
    if found.Some? {
      var item := found.value;
      if !Blocked(item, cards, forceAddDuplicates) {
        var card := ItemCard(item, nextId, now);
        if card.Some? {
          var r := Single(Added, cards + [card.value], RemoveId(queue, itemId), nextId + 1);
          assert AddSingle(cards, queue, nextId, itemId, forceAddDuplicates, now) == r;
          assert r.cards[..|cards|] == cards && r.cards[|cards|] == card.value;
        }
      }
    }
  }

  /** Which item leads to which outcome, in both directions: a queued item
      with the id is blocked exactly when the duplicate check finds a card
      for its stem (and forcing is off), needs review exactly when it is not
      blocked and `buildCard` rejects it, and is added otherwise, as the
      card `buildCard` makes of it. */
  lemma AddSingleTriggers(cards: seq<Card>, queue: seq<BatchItem>, nextId: nat, itemId: nat, forceAddDuplicates: bool, now: int)
    ensures var r := AddSingle(cards, queue, nextId, itemId, forceAddDuplicates, now);
      var found := FindItem(queue, itemId);
      && (r.outcome == DuplicateBlocked <==> found.Some? && Blocked(found.value, cards, forceAddDuplicates))
      && (r.outcome == NeedsReview <==>
            found.Some? && !Blocked(found.value, cards, forceAddDuplicates)
            && Rejected(found.value.parsed.front, found.value.parsed.back, found.value.parsed.options, found.value.parsed.correctIndex))
      && (r.outcome == Added <==>
            found.Some? && !Blocked(found.value, cards, forceAddDuplicates) && ItemCard(found.value, nextId, now).Some?)
      && (r.outcome == Added ==> |r.cards| == |cards| + 1 && Some(r.cards[|cards|]) == ItemCard(found.value, nextId, now))
  {
    var found := FindItem(queue, itemId);
    if found.Some? && !Blocked(found.value, cards, forceAddDuplicates) {
      var card := ItemCard(found.value, nextId, now);
      if card.Some? {
        assert AddSingle(cards, queue, nextId, itemId, forceAddDuplicates, now)
          == Single(Added, cards + [card.value], RemoveId(queue, itemId), nextId + 1);
        assert (cards + [card.value])[|cards|] == card.value;
      }
    }
  }

  /** The page's state that these two operations change. */
  class Workspace {
    var cards: seq<Card>
    var batchQueue: seq<BatchItem>
    /** The ids `uid()` hands out next. */
    var nextId: nat

    constructor (cards: seq<Card>, batchQueue: seq<BatchItem>, nextId: nat)
      ensures this.cards == cards && this.batchQueue == batchQueue && this.nextId == nextId
    {
      this.cards := cards;
      this.batchQueue := batchQueue;
      this.nextId := nextId;
    }

    /** `addAllHighConfidence`, popup.js:438-474: returns the counts of
        added and skipped items for the closing message; the duplicate check
        of each item sees the cards added before it in the same pass. */
    method AddAllHighConfidence(forceAddDuplicates: bool, now: int) returns (added: nat, skippedDuplicates: nat)
      modifies this
      ensures old(batchQueue) == [] ==> cards == old(cards) && batchQueue == [] && nextId == old(nextId) && added == 0 && skippedDuplicates == 0
      ensures var r := AcceptAll(old(cards), old(batchQueue), old(nextId), forceAddDuplicates, now);
        cards == r.cards && batchQueue == r.remaining && nextId == r.nextId && added == r.added && skippedDuplicates == r.skipped
    {
      added, skippedDuplicates := 0, 0;
      if |batchQueue| == 0 {
        return;
      }
      var queue := batchQueue;
      ghost var start := Pass(cards, [], 0, 0, nextId);
      var remaining: seq<BatchItem> := [];
      var i := 0;
      while i < |queue|
        invariant 0 <= i <= |queue|
        invariant Pass(cards, remaining, added, skippedDuplicates, nextId) == AcceptUpTo(start, queue, i, forceAddDuplicates, now)
      {
        var item := queue[i];
        if item.isLowConfidence {
          remaining := remaining + [item];
        } else {
          var duplicate: Option<Card> := None;
          if !forceAddDuplicates {
            duplicate := FindDuplicateCard(item.parsed.front, cards);
          }
          if duplicate.Some? {
            skippedDuplicates := skippedDuplicates + 1;
          } else {
            var card := ItemCard(item, nextId, now);
            if card.None? {
              remaining := remaining + [item];
            } else {
              cards := cards + [card.value];
              nextId := nextId + 1;
              added := added + 1;
            }
          }
        }
        i := i + 1;
      }
      batchQueue := remaining;
    }

    /** `addSingleBatchItem`, popup.js:336-361: returns which message the
        page shows. */
    method AddSingleBatchItem(itemId: nat, forceAddDuplicates: bool, now: int) returns (outcome: SingleOutcome)
      modifies this
      ensures var r := AddSingle(old(cards), old(batchQueue), old(nextId), itemId, forceAddDuplicates, now);
        outcome == r.outcome && cards == r.cards && batchQueue == r.queue && nextId == r.nextId
    {
      ghost var r := AddSingle(cards, batchQueue, nextId, itemId, forceAddDuplicates, now);
      var found := FindItem(batchQueue, itemId);
      if found.None? {
        return UnknownItem;
      }
      var item := found.value;
      var duplicate: Option<Card> := None;
      if !forceAddDuplicates {
        duplicate := FindDuplicateCard(item.parsed.front, cards);
      }
      assert duplicate.Some? <==> Blocked(item, cards, forceAddDuplicates);
      if duplicate.Some? {
        assert r == Single(DuplicateBlocked, cards, RemoveId(batchQueue, itemId), nextId);
        batchQueue := RemoveId(batchQueue, itemId);
        return DuplicateBlocked;
      }
      var card := ItemCard(item, nextId, now);
      if card.None? {
        return NeedsReview;
      }
      assert r == Single(Added, cards + [card.value], RemoveId(batchQueue, itemId), nextId + 1);
      cards := cards + [card.value];
      nextId := nextId + 1;
      batchQueue := RemoveId(batchQueue, itemId);
      return Added;
    }

    /** The queue's "Remove" button (popup.js:398-401): every entry with the
        id leaves the queue and the cards stay as they are. */
    method RemoveBatchItem(itemId: nat)
      modifies this
      ensures batchQueue == RemoveId(old(batchQueue), itemId)
      ensures cards == old(cards) && nextId == old(nextId)
    {
      batchQueue := RemoveId(batchQueue, itemId);
    }
  }
}
