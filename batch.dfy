/** Turning a pasted text into a queue of parsed questions, `parseBatchInput`
    (popup.js:236-253). */
module Batch {
  import opened Text
  import opened Parser
  import opened Blocks
  import Patterns

  /** One queued question: `uid()` is supplied as `id`, the score is in
      hundredths, and `signature` is the key duplicates are recognised by. */
  datatype BatchItem = BatchItem(id: nat, parsed: ParsedBlock, confidence: nat, isLowConfidence: bool, signature: string)

  /** The item popup.js:241-244 makes from one block: the signature is the
      key of the stem, or of the whole block when no stem was found. */
  function MakeItem(block: string, id: nat): BatchItem {
    var parsed := ParseBlock(block);
    var confidence := ScoreConfidence(parsed);
    BatchItem(id, parsed, confidence, confidence < LowConfidence,
      NormalizeQuestion(if parsed.front != [] then parsed.front else block))
  }

  /** The first filter, popup.js:246: a stem, an option or an answer text. */
  predicate HasContent(item: BatchItem) {
    item.parsed.front != [] || |item.parsed.options| > 0 || item.parsed.back != []
  }

  /** The `map` of popup.js:239-245 over the first `n` blocks, with `make`
      building each item: one item per block. `uid()` runs for every block
      before anything is filtered, so block `k` gets id `firstId + k`. */
  function CandidatesUpTo(make: (string, nat) -> BatchItem, blocks: seq<string>, firstId: nat, n: nat): (r: seq<BatchItem>)
    requires n <= |blocks|
    ensures |r| == n
  {
    if n == 0 then [] else CandidatesUpTo(make, blocks, firstId, n - 1) + [make(blocks[n - 1], firstId + n - 1)]
  }

  function Candidates(blocks: seq<string>, firstId: nat): (r: seq<BatchItem>)
    ensures |r| == |blocks|
  {
    CandidatesUpTo(MakeItem, blocks, firstId, |blocks|)
  }

  /** One more block adds its item at the end. */
  lemma CandidatesStep(make: (string, nat) -> BatchItem, blocks: seq<string>, firstId: nat, i: nat)
    requires i < |blocks|
    ensures CandidatesUpTo(make, blocks, firstId, i + 1) == CandidatesUpTo(make, blocks, firstId, i) + [make(blocks[i], firstId + i)]
  {
  }

  /** Candidate `k` is the item of block `k`. */
  lemma {:induction false} CandidateAt(make: (string, nat) -> BatchItem, blocks: seq<string>, firstId: nat, n: nat, k: nat)
    requires k < n <= |blocks|
    ensures CandidatesUpTo(make, blocks, firstId, n)[k] == make(blocks[k], firstId + k)
  {
    var prev := CandidatesUpTo(make, blocks, firstId, n - 1);
    assert CandidatesUpTo(make, blocks, firstId, n) == prev + [make(blocks[n - 1], firstId + n - 1)];
    if k < n - 1 {
      CandidateAt(make, blocks, firstId, n - 1, k);
    }
  }

  /** The candidates' ids count up from `firstId` when `make` keeps the id
      it is given. */
  lemma {:induction false} CandidateIds(make: (string, nat) -> BatchItem, blocks: seq<string>, firstId: nat, n: nat)
    requires n <= |blocks|
    requires forall b, id :: make(b, id).id == id
    ensures IdsFrom(CandidatesUpTo(make, blocks, firstId, n), firstId)
  {
    if n > 0 {
      CandidateIds(make, blocks, firstId, n - 1);
      var prev := CandidatesUpTo(make, blocks, firstId, n - 1);
      var item := make(blocks[n - 1], firstId + n - 1);
      assert CandidatesUpTo(make, blocks, firstId, n) == prev + [item];
    }
  }

  /** Block `k` gets id `firstId + k`. */
  lemma CandidatesIds(blocks: seq<string>, firstId: nat)
    ensures IdsFrom(Candidates(blocks, firstId), firstId)
  {
    MakeItemKeepsId();
    CandidateIds(MakeItem, blocks, firstId, |blocks|);
  }

  /** `MakeItem` keeps the id it is given. */
  lemma MakeItemKeepsId()
    ensures forall b, id :: MakeItem(b, id).id == id
  {
  }

  /** The score of an item is at most 100 and it is marked for review
      exactly below 55. */
  lemma MakeItemConfidence(block: string, id: nat)
    ensures MakeItem(block, id).confidence <= 100
    ensures MakeItem(block, id).isLowConfidence <==> MakeItem(block, id).confidence < LowConfidence
  {
  }

  /** The items kept so far and the `seen` set of the second filter. */
  datatype Screen = Screen(items: seq<BatchItem>, seen: set<string>)

  /** Both filters, popup.js:246-252, applied to one more item: an item
      without content is dropped, one with an empty signature is always
      kept, and one whose signature was seen before is dropped. */
  function Admit(s: Screen, item: BatchItem): Screen {
    if !HasContent(item) then s
    else if item.signature == [] then s.(items := s.items + [item])
    else if item.signature in s.seen then s
    else Screen(s.items + [item], s.seen + {item.signature})
  }

  /** The filters run over the first `n` candidates. */
  function ScreenUpTo(cands: seq<BatchItem>, n: nat): Screen
    requires n <= |cands|
  {
    if n == 0 then Screen([], {}) else Admit(ScreenUpTo(cands, n - 1), cands[n - 1])
  }

  /** `parseBatchInput(raw)`, popup.js:236-253, as a value. */
  function ParseBatch(raw: string, firstId: nat): seq<BatchItem> {
    var cands := Candidates(SplitBlocks(raw), firstId);
    ScreenUpTo(cands, |cands|).items
  }

  // ---- a reference definition of the two filters ----

  /** Candidate `k` is kept exactly when it has content and no earlier
      candidate with content carries the same non-empty signature. */
  predicate FirstOccurrence(cands: seq<BatchItem>, k: nat)
    requires k < |cands|
  {
    && HasContent(cands[k])
    && (cands[k].signature == []
        || forall j :: 0 <= j < k && HasContent(cands[j]) ==> cands[j].signature != cands[k].signature)
  }

  /** The candidates among the first `n` that are first occurrences, in order. */
  function Kept(cands: seq<BatchItem>, n: nat): seq<BatchItem>
    requires n <= |cands|
  {
    if n == 0 then [] else Kept(cands, n - 1) + (if FirstOccurrence(cands, n - 1) then [cands[n - 1]] else [])
  }

  /** The non-empty signatures of the candidates with content among the first `n`. */
  function SeenUpTo(cands: seq<BatchItem>, n: nat): set<string>
    requires n <= |cands|
  {
    set j | 0 <= j < n && HasContent(cands[j]) && cands[j].signature != [] :: cands[j].signature
  }

  /** The `seen` set makes the second filter keep exactly the first
      occurrence of each non-empty signature. */
  lemma {:induction false} ScreenIsKept(cands: seq<BatchItem>, n: nat)
    requires n <= |cands|
    ensures ScreenUpTo(cands, n) == Screen(Kept(cands, n), SeenUpTo(cands, n))
  {
    if n > 0 {
      ScreenIsKept(cands, n - 1);
      var item := cands[n - 1];
      var seen := SeenUpTo(cands, n - 1);
      assert ScreenUpTo(cands, n) == Admit(Screen(Kept(cands, n - 1), seen), item);
      if HasContent(item) && item.signature != [] {
        if item.signature in seen {
          var j :| 0 <= j < n - 1 && HasContent(cands[j]) && cands[j].signature != [] && cands[j].signature == item.signature;
          assert !FirstOccurrence(cands, n - 1);
        } else {
          assert FirstOccurrence(cands, n - 1);
        }
        assert SeenUpTo(cands, n) == seen + {item.signature};
      } else {
        assert SeenUpTo(cands, n) == seen;
      }
    }
  }

  /** Candidates whose ids count up from `base`. */
  predicate IdsFrom(cands: seq<BatchItem>, base: nat) {
    forall k :: 0 <= k < |cands| ==> cands[k].id == base + k
  }

  /** Every kept item has content and sits at the position its id names. */
  lemma {:induction false} KeptFromCandidates(cands: seq<BatchItem>, base: nat, n: nat)
    requires n <= |cands| && IdsFrom(cands, base)
    ensures forall i :: 0 <= i < |Kept(cands, n)| ==>
      && HasContent(Kept(cands, n)[i])
      && base <= Kept(cands, n)[i].id < base + n
      && Kept(cands, n)[i] == cands[Kept(cands, n)[i].id - base]
  {
    if n > 0 {
      KeptFromCandidates(cands, base, n - 1);
      var prev := Kept(cands, n - 1);
      if FirstOccurrence(cands, n - 1) {
        var next := prev + [cands[n - 1]];
        assert Kept(cands, n) == next;
        assert cands[n - 1].id == base + n - 1;
        forall i | 0 <= i < |next|
          ensures HasContent(next[i]) && base <= next[i].id < base + n && next[i] == cands[next[i].id - base]
        {
          if i < |prev| {
            assert next[i] == prev[i];
          }
        }
      } else {
        assert Kept(cands, n) == prev;
      }
    }
  }

  /** The kept items follow the order of their ids. */
  lemma {:induction false} KeptIncreasing(cands: seq<BatchItem>, base: nat, n: nat)
    requires n <= |cands| && IdsFrom(cands, base)
    ensures forall i, j :: 0 <= i < j < |Kept(cands, n)| ==> Kept(cands, n)[i].id < Kept(cands, n)[j].id
  {
    if n > 0 {
      KeptIncreasing(cands, base, n - 1);
      KeptFromCandidates(cands, base, n - 1);
      var prev := Kept(cands, n - 1);
      if FirstOccurrence(cands, n - 1) {
        var next := prev + [cands[n - 1]];
        assert Kept(cands, n) == next;
        assert cands[n - 1].id == base + n - 1;
        forall i, j | 0 <= i < j < |next| ensures next[i].id < next[j].id {
          assert next[i] == prev[i];
          if j < |prev| {
            assert next[j] == prev[j];
          }
        }
      } else {
        assert Kept(cands, n) == prev;
      }
    }
  }

  /** No two kept items share a non-empty signature. */
  lemma {:induction false} KeptUnique(cands: seq<BatchItem>, base: nat, n: nat)
    requires n <= |cands| && IdsFrom(cands, base)
    ensures forall i, j :: 0 <= i < j < |Kept(cands, n)| && Kept(cands, n)[i].signature != [] ==>
      Kept(cands, n)[i].signature != Kept(cands, n)[j].signature
  {
    if n > 0 {
      KeptUnique(cands, base, n - 1);
      KeptFromCandidates(cands, base, n - 1);
      var prev := Kept(cands, n - 1);
      if FirstOccurrence(cands, n - 1) {
        var item := cands[n - 1];
        var next := prev + [item];
        assert Kept(cands, n) == next;
        forall i, j | 0 <= i < j < |next| && next[i].signature != []
          ensures next[i].signature != next[j].signature
        {
          assert next[i] == prev[i];
          if j < |prev| {
            assert next[j] == prev[j];
          } else {
            var k := prev[i].id - base;
            assert prev[i] == cands[k] && k < n - 1 && HasContent(cands[k]);
            assert next[j] == item;
          }
        }
      } else {
        assert Kept(cands, n) == prev;
      }
    }
  }

  /** Every first occurrence is kept. */
  lemma {:induction false} KeptComplete(cands: seq<BatchItem>, n: nat, k: nat)
    requires k < n <= |cands| && FirstOccurrence(cands, k)
    ensures cands[k] in Kept(cands, n)
  {
    var prev := Kept(cands, n - 1);
    assert Kept(cands, n) == prev + (if FirstOccurrence(cands, n - 1) then [cands[n - 1]] else []);
    if k < n - 1 {
      KeptComplete(cands, n - 1, k);
    }
  }

  // ---- what `parseBatchInput` returns ----

  /** Item `item` is the item of one of `blocks`: it has content, its id
      names the block it came from, and its low-confidence flag is set
      exactly when its score, at most 100, is below 55. */
  predicate ItemOfBlock(blocks: seq<string>, firstId: nat, item: BatchItem) {
    && HasContent(item)
    && firstId <= item.id < firstId + |blocks|
    && item == MakeItem(blocks[item.id - firstId], item.id)
    && item.confidence <= 100
    && (item.isLowConfidence <==> item.confidence < LowConfidence)
  }

  /** The screened candidates of `blocks` are all items of their blocks. */
  lemma ScreenedItems(blocks: seq<string>, firstId: nat)
    ensures forall i :: 0 <= i < |Kept(Candidates(blocks, firstId), |blocks|)| ==>
      ItemOfBlock(blocks, firstId, Kept(Candidates(blocks, firstId), |blocks|)[i])
  {
    forall i | 0 <= i < |Kept(Candidates(blocks, firstId), |blocks|)|
      ensures ItemOfBlock(blocks, firstId, Kept(Candidates(blocks, firstId), |blocks|)[i])
    {
      KeptOfBlock(blocks, firstId, i);
    }
  }

  /** The `i`-th kept candidate is the item of its block. */
  lemma KeptOfBlock(blocks: seq<string>, firstId: nat, i: nat)
    requires i < |Kept(Candidates(blocks, firstId), |blocks|)|
    ensures ItemOfBlock(blocks, firstId, Kept(Candidates(blocks, firstId), |blocks|)[i])
  {
    var item := Kept(Candidates(blocks, firstId), |blocks|)[i];
    KeptIsCandidate(blocks, firstId, i);
    CandidateOfBlock(blocks, firstId, item.id - firstId);
  }

  /** The `i`-th kept candidate is the candidate its id names. */
  lemma KeptIsCandidate(blocks: seq<string>, firstId: nat, i: nat)
    requires i < |Kept(Candidates(blocks, firstId), |blocks|)|
    ensures var item := Kept(Candidates(blocks, firstId), |blocks|)[i];
      firstId <= item.id < firstId + |blocks| && HasContent(item)
      && item == Candidates(blocks, firstId)[item.id - firstId]
  {
    var cands := Candidates(blocks, firstId);
    CandidatesIds(blocks, firstId);
    KeptFromCandidates(cands, firstId, |cands|);
  }

  /** Candidate `k` is the item of block `k`, whenever it has content. */
  lemma CandidateOfBlock(blocks: seq<string>, firstId: nat, k: nat)
    requires k < |blocks| && HasContent(Candidates(blocks, firstId)[k])
    ensures ItemOfBlock(blocks, firstId, Candidates(blocks, firstId)[k])
  {
    var c := Candidates(blocks, firstId)[k];
    CandidateAt(MakeItem, blocks, firstId, |blocks|, k);
    assert c == MakeItem(blocks[k], firstId + k);
    MakeItemKeepsId();
    assert c.id == firstId + k;
    MakeItemConfidence(blocks[k], firstId + k);
  }

  /** Every queued item is the item of its own block (`ItemOfBlock`). */
  lemma ParseBatchItems(raw: string, firstId: nat)
    ensures forall i :: 0 <= i < |ParseBatch(raw, firstId)| ==> ItemOfBlock(SplitBlocks(raw), firstId, ParseBatch(raw, firstId)[i])
  {
    var blocks := SplitBlocks(raw);
    var cands := Candidates(blocks, firstId);
    ScreenIsKept(cands, |cands|);
    ScreenedItems(blocks, firstId);
  }

  /** The queue follows the order of the blocks, and no two items share a
      non-empty signature. */
  lemma ParseBatchOrderedUnique(raw: string, firstId: nat)
    ensures forall i, j :: 0 <= i < j < |ParseBatch(raw, firstId)| ==>
      ParseBatch(raw, firstId)[i].id < ParseBatch(raw, firstId)[j].id
    ensures forall i, j :: 0 <= i < j < |ParseBatch(raw, firstId)| && ParseBatch(raw, firstId)[i].signature != [] ==>
      ParseBatch(raw, firstId)[i].signature != ParseBatch(raw, firstId)[j].signature
  {
    var blocks := SplitBlocks(raw);
    var cands := Candidates(blocks, firstId);
    ScreenIsKept(cands, |cands|);
    CandidatesIds(blocks, firstId);
    KeptIncreasing(cands, firstId, |cands|);
    KeptUnique(cands, firstId, |cands|);
  }

  /** Nothing is dropped but empty parses and repeats: the item of every
      block that has content and whose signature is empty or new is queued. */
  lemma ParseBatchKeepsFirstOccurrences(raw: string, firstId: nat, k: nat)
    requires k < |SplitBlocks(raw)|
    requires FirstOccurrence(Candidates(SplitBlocks(raw), firstId), k)
    ensures MakeItem(SplitBlocks(raw)[k], firstId + k) in ParseBatch(raw, firstId)
  {
    var blocks := SplitBlocks(raw);
    var cands := Candidates(blocks, firstId);
    ScreenIsKept(cands, |cands|);
    KeptComplete(cands, |cands|, k);
    CandidateAt(MakeItem, blocks, firstId, |blocks|, k);
  }

  /** A blank paste yields an empty queue. */
  lemma ParseBatchBlank(raw: string)
    requires AllSpace(raw)
    ensures forall firstId :: ParseBatch(raw, firstId) == []
  {
  }

  /** Two questions pasted with a blank line between them become two queue
      items, each parsed and scored from its own block alone, unless their
      stems share a key. */
  lemma ParseTwoParagraphs(first: string, second: string, firstId: nat)
    requires Patterns.IsParagraph(first) && '\r' !in first
    requires Patterns.IsParagraph(second) && '\r' !in second
    requires MakeItem(first, firstId).signature == [] || MakeItem(first, firstId).signature != MakeItem(second, firstId + 1).signature
    ensures ParseBatch(first + "\n\n" + second, firstId) == [MakeItem(first, firstId), MakeItem(second, firstId + 1)]
  {
    SplitTwoParagraphs(first, second);
    TwoCandidates([first, second], firstId);
    MakeItemHasContent(first, firstId);
    MakeItemHasContent(second, firstId + 1);
    ScreenTwo(Candidates([first, second], firstId));
  }

  lemma TwoCandidates(ps: seq<string>, firstId: nat)
    requires |ps| == 2
    ensures Candidates(ps, firstId) == [MakeItem(ps[0], firstId), MakeItem(ps[1], firstId + 1)]
  {
    TwoMade(MakeItem, ps, firstId);
  }

  /** Two blocks give the two items made of them, in order. */
  lemma TwoMade(make: (string, nat) -> BatchItem, ps: seq<string>, firstId: nat)
    requires |ps| == 2
    ensures CandidatesUpTo(make, ps, firstId, 2) == [make(ps[0], firstId), make(ps[1], firstId + 1)]
  {
    CandidatesStep(make, ps, firstId, 0);
    CandidatesStep(make, ps, firstId, 1);
  }

  /** A non-blank block gives an item with a stem. */
  lemma MakeItemHasContent(block: string, id: nat)
    requires !AllSpace(block)
    ensures HasContent(MakeItem(block, id))
  {
  }

  /** Two items with content and different (or empty) keys both pass the
      filters. */
  lemma ScreenTwo(cands: seq<BatchItem>)
    requires |cands| == 2 && HasContent(cands[0]) && HasContent(cands[1])
    requires cands[0].signature == [] || cands[0].signature != cands[1].signature
    ensures ScreenUpTo(cands, 2).items == cands
  {
    assert ScreenUpTo(cands, 1) == Admit(Screen([], {}), cands[0]);
  }

  // ---- the imperative form ----

  /** The callback of the `map`, popup.js:240-245. */
  method BuildItem(block: string, id: nat) returns (item: BatchItem)
    ensures item == MakeItem(block, id)
  {
    var parsed := ParseQuestionBlock(block);
    var confidence := ScoreConfidence(parsed);
    var signature := NormalizeQuestion(if parsed.front != [] then parsed.front else block);
    item := BatchItem(id, parsed, confidence, confidence < LowConfidence, signature);
  }

  /** `parseBatchInput`, popup.js:236-253, with `uid()` drawing from
      `firstId` on: returns the queue and the next unused id. */
  method ParseBatchInput(raw: string, firstId: nat) returns (items: seq<BatchItem>, nextId: nat)
    ensures items == ParseBatch(raw, firstId)
    ensures nextId == firstId + |SplitBlocks(raw)|
  {
    var blocks := SplitIntoBlocks(raw);
    var cands := MapBlocks(blocks, firstId);
    items := FilterItems(cands);
    nextId := firstId + |blocks|;
  }

  /** The `map` of popup.js:239-245. */
  method MapBlocks(blocks: seq<string>, firstId: nat) returns (cands: seq<BatchItem>)
    ensures cands == Candidates(blocks, firstId)
  {
    cands := [];
    var i := 0;
    while i < |blocks|
      invariant 0 <= i <= |blocks|
      invariant cands == CandidatesUpTo(MakeItem, blocks, firstId, i)
    {
      var block := blocks[i];
      var id := firstId + i;
      var item := BuildItem(block, id);
      CandidatesStep(MakeItem, blocks, firstId, i);
      assert item == MakeItem(block, id);
      cands := cands + [item];
      i := i + 1;
    }
  }

  /** The two `filter`s of popup.js:246-252, run in one pass with the same
      `seen` set. */
  method FilterItems(cands: seq<BatchItem>) returns (items: seq<BatchItem>)
    ensures items == ScreenUpTo(cands, |cands|).items
  {
    items := [];
    var seen: set<string> := {};
    var j := 0;
    while j < |cands|
      invariant 0 <= j <= |cands|
      invariant Screen(items, seen) == ScreenUpTo(cands, j)
    {
      var item := cands[j];
      if HasContent(item) {
        if item.signature == [] {
          items := items + [item];
        } else if item.signature !in seen {
          seen := seen + {item.signature};
          items := items + [item];
        }
      }
      j := j + 1;
    }
  }
}
