/** Card records: validation and construction (`buildCard`, popup.js:263-285)
    and the near-duplicate search over existing cards (`findDuplicateCard`,
    popup.js:80-92). */
module Cards {
  import opened Text
  import opened Similarity

  datatype QuestionStyle = MultipleChoice | Flashcard

  /** The record `buildCard` returns. `uid()` and `now()` are supplied by the
      caller as `id` and a timestamp; `easeFactor` keeps its decimal value. */
  datatype Card = Card(
    id: nat,
    content: string,
    rationale: string,
    answer: seq<string>,
    options: seq<string>,
    tags: seq<string>,
    domain: string,
    questionStyle: QuestionStyle,
    createdAt: int,
    box: nat,
    nextReviewDate: int,
    easeFactor: real,
    repetitions: nat,
    interval: nat)

  /** The shape every built card has: a multiple-choice card has at least
      two options and its single answer is one of them; a flashcard has no
      options and a non-empty answer that is also its rationale. */
  predicate WellFormed(c: Card) {
    && c.content != []
    && |c.answer| == 1
    && match c.questionStyle
       case MultipleChoice => |c.options| >= 2 && c.answer[0] in c.options
       case Flashcard => c.options == [] && c.answer[0] != [] && c.rationale == c.answer[0]
  }

  /** The validation of popup.js:264-267: why `buildCard` returns `null`. */
  predicate Rejected(front: string, back: string, options: seq<string>, correctIndex: Option<int>) {
    || front == []
    || (|options| < 2 && back == [])
    || (|options| >= 2 && (correctIndex.None? || correctIndex.value < 0 || correctIndex.value >= |options|))
  }

  /** `buildCard`, popup.js:263-285. */
  function BuildCard(front: string, back: string, options: seq<string>, correctIndex: Option<int>, id: nat, now: int): (r: Option<Card>)
    ensures r.None? <==> Rejected(front, back, options, correctIndex)
    ensures r.Some? ==> WellFormed(r.value) && r.value.id == id && r.value.content == front
    ensures r.Some? && |options| >= 2 ==>
      r.value.questionStyle == MultipleChoice && r.value.options == options && r.value.answer == [options[correctIndex.value]]
    ensures r.Some? && |options| < 2 ==>
      r.value.questionStyle == Flashcard && r.value.options == [] && r.value.answer == [back]
    ensures r.Some? ==> r.value.rationale == if back != [] then back else r.value.answer[0]
  {
    var isMc := |options| >= 2;
    if front == [] then None
    else if !isMc && back == [] then None
    else if isMc && (correctIndex.None? || correctIndex.value < 0 || correctIndex.value >= |options|) then None
    else
      var answerText := if isMc then options[correctIndex.value] else back;
      assert isMc ==> answerText in options;
      Some(Card(
        id := id,
        content := front,
        rationale := if back != [] then back else answerText,
        answer := [answerText],
        options := if isMc then options else [],
        tags := ["extension-import"],
        domain := "General",
        questionStyle := if isMc then MultipleChoice else Flashcard,
        createdAt := now,
        box := 1,
        nextReviewDate := now,
        easeFactor := 2.5,
        repetitions := 0,
        interval := 0))
  }

  /** `Math.max(8, Math.round(n * 0.25))` for a length `n`: a quarter of
      the length rounded half up, but never below eight. */
  function AllowedLengthGap(n: nat): (g: nat)
    ensures g >= 8
    ensures g == 8 <==> n < 34
    ensures g > 8 ==> 4 * g - 2 <= n < 4 * g + 2
  {
    var quarter := (n + 2) / 4;
    if quarter > 8 then quarter else 8
  }

  function Gap(m: nat, n: nat): nat {
    if m >= n then m - n else n - m
  }

  /** The test popup.js:84-89 applies to one card against the key of the new
      stem: a non-empty key that is identical, or close in length and at
      least 0.9 similar. */
  predicate IsDuplicateOf(key: string, card: Card) {
    var cardKey := NormalizeQuestion(card.content);
    && cardKey != []
    && (cardKey == key
        || (Gap(|cardKey|, |key|) <= AllowedLengthGap(|key|) && AtLeastNineTenths(Dice(cardKey, key))))
  }

  /** The first index from `i` on whose flag is set. */
  function FirstSet(flags: seq<bool>, i: nat): (r: Option<nat>)
    requires i <= |flags|
    ensures r.Some? ==> i <= r.value < |flags| && flags[r.value]
    ensures r.Some? ==> forall j :: i <= j < r.value ==> !flags[j]
    ensures r.None? ==> forall j :: i <= j < |flags| ==> !flags[j]
    decreases |flags| - i
  {
    if i == |flags| then None
    else if flags[i] then Some(i)
    else FirstSet(flags, i + 1)
  }

  /** For each card, whether `key` duplicates it. */
  function DuplicateFlags(key: string, cards: seq<Card>): (r: seq<bool>)
    ensures |r| == |cards|
    ensures forall k :: 0 <= k < |cards| ==> r[k] == IsDuplicateOf(key, cards[k])
  {
    seq(|cards|, k requires 0 <= k < |cards| => IsDuplicateOf(key, cards[k]))
  }

  /** `findDuplicateCard(front)` against the card list `cards`, as a value:
      nothing for a stem with an empty key, otherwise the first card, in
      list order, that the stem duplicates. */
  function FirstDuplicate(front: string, cards: seq<Card>): (r: Option<Card>)
    ensures NormalizeQuestion(front) == [] ==> r == None
    ensures r.Some? ==> exists k :: (0 <= k < |cards| && cards[k] == r.value
      && IsDuplicateOf(NormalizeQuestion(front), cards[k])
      && forall j :: 0 <= j < k ==> !IsDuplicateOf(NormalizeQuestion(front), cards[j]))
    ensures NormalizeQuestion(front) != [] && r.None? ==>
      forall k :: 0 <= k < |cards| ==> !IsDuplicateOf(NormalizeQuestion(front), cards[k])
  {
    var key := NormalizeQuestion(front);
    if key == [] then None
    else
      var flags := DuplicateFlags(key, cards);
      match FirstSet(flags, 0)
      case Some(k) =>
        assert IsDuplicateOf(key, cards[k]) by { assert flags[k]; }
        assert forall j :: 0 <= j < k ==> !IsDuplicateOf(key, cards[j]) by {
          forall j | 0 <= j < k ensures !IsDuplicateOf(key, cards[j]) { assert !flags[j]; }
        }
        Some(cards[k])
      case None => None
  }

  /** `findDuplicateCard`, popup.js:80-92, with `state.cards` passed in as
      `cards`: scans the cards in order and returns the first duplicate. */
  method FindDuplicateCard(front: string, cards: seq<Card>) returns (r: Option<Card>)
    ensures r == FirstDuplicate(front, cards)
    ensures r.Some? ==> r.value in cards
  {
    var normalized := NormalizeQuestion(front);
    if normalized == [] {
      return None;
    }
    ghost var flags := DuplicateFlags(normalized, cards);
    var i := 0;
    while i < |cards|
      invariant 0 <= i <= |cards|
      invariant FirstSet(flags, 0) == FirstSet(flags, i)
    {
      var cardNorm := NormalizeQuestion(cards[i].content);
      if cardNorm != [] {
        if cardNorm == normalized {
          return Some(cards[i]);
        }
        var lengthDiff := Gap(|cardNorm|, |normalized|);
        var allowedDiff := AllowedLengthGap(|normalized|);
        if lengthDiff <= allowedDiff {
          var dice := DiceCoefficient(cardNorm, normalized);
          if AtLeastNineTenths(dice) {
            return Some(cards[i]);
          }
        }
      }
      assert !IsDuplicateOf(normalized, cards[i]);
      assert !flags[i];
      assert FirstSet(flags, i) == FirstSet(flags, i + 1);
      i := i + 1;
    }
    return None;
  }
}
