# Question import: a Dafny model

This project models the text-processing core of the Chrome extension's popup
(`popup.js`). It covers how pasted study questions become cards. The pipeline:

1. The pasted text is cut into question blocks.
2. Each block is parsed into a stem, options, a correct answer and an explanation.
3. Each parse gets a confidence score.
4. A card record is built from the parse.
5. Each new card is checked against existing cards for near-duplicates.

It also models the two actions that move queued questions into the card list:
accepting one queued item, and accepting every high-confidence item.

Each regular expression in the source is written out by hand. It is an explicit
backtracking search that tries alternatives in the order a JavaScript engine does.
A greedy quantifier gives characters back one at a time.

Other modelling choices:

- Strings are sequences of Unicode scalar values.
- The two string lengths `scoreConfidence` compares (`front.length >= 12` and
  `back.length >= 8`) are counted in UTF-16 code units (`Text.Utf16Length`). Every
  other `.length` of a string is taken of a comparison key, which holds only ASCII
  characters, so there scalar values and code units agree.
- `toLowerCase` is modelled character by character. This is exact for every later
  use, because each use keeps only ASCII letters, digits and whitespace.
- Floating-point confidences are integer hundredths. The "low confidence" threshold
  0.55 is `Parser.LowConfidence` = 55.
- Dice similarity is an exact ratio. The test `>= 0.9` becomes `10 * num >= 9 * den`.

Modules, one per file:

- `Text` (text.dfy): JavaScript whitespace, `trim`, `cleanText`, `normalizeQuestion`,
  split and join.
- `Patterns` (patterns.dfy): the regular expressions.
- `Similarity` (similarity.dfy): `buildBigrams`, `diceCoefficient`.
- `Cards` (cards.dfy): `buildCard`, `findDuplicateCard`.
- `Parser` (parser.dfy): `parseAnswerTokenToIndex`, `detectAnswerFromRaw`,
  `parseQuestionBlock`, `scoreConfidence`.
- `Blocks` (blocks.dfy): `splitIntoBlocks`.
- `Batch` (batch.dfy): `parseBatchInput`.
- `Acceptance` (workspace.dfy): the `Workspace` class, with `addSingleBatchItem`
  and `addAllHighConfidence`.
- `Scenarios` (scenarios.dfy): three worked pastes, proved end to end, and two questions that share one comparison key.

Each loop of the source, except the line scan of `detectAnswerFromRaw` (the
recursive function `Parser.FirstAnswer`), is a method. The method's postcondition ties its result
to a specification function, and the properties are proved as lemmas about that
function.

A note on popup.js:190. A plain description of the format would say the
explanation is the rest of the line that starts with `answer`, `ans` or `correct`.
The code's regular expression does more: the `\s*` after the keyword can cross a
line break, so `Answer:` followed by `B` on the next line gives the explanation `B`.
`Parser.BackText` follows the code.

## Model

| member | source | states |
|---|---|---|
| Text.TrimSpec | popup.js:47 | `trim` removes exactly a leading and a trailing whitespace run. The result is empty iff the input is all whitespace. |
| Text.ReplaceCrlf | popup.js:47 | Replacing CRLF by LF changes nothing when there is no CR. It keeps "all whitespace" in both directions and never lengthens the text. |
| Text.ReplaceFirstCrlf | popup.js:47 | The first CRLF of a text becomes a single LF: the part before it is kept as it is, and the rest is replaced in turn. |
| Text.CleanText | popup.js:46-48 | The result has no leading or trailing whitespace. It is empty iff the input is all whitespace. |
| Text.LowerChar | popup.js:51 | An ASCII capital maps to its lower-case letter. Every other character except U+0130 and the Kelvin sign U+212A maps to itself. |
| Text.Lower | popup.js:51 | No ASCII capital survives lower-casing. |
| Text.BlankOutSymbols | popup.js:51 | Same length. Each lower-case ASCII letter, digit and whitespace character stays where it is; every other character becomes a space. |
| Text.CollapseSpaces | popup.js:51 | The only whitespace left is the plain space, and no two spaces are adjacent. Every other character comes from the input. The result starts with a space iff the input starts with whitespace. |
| Text.CollapseKeepsNonSpaces | popup.js:51 | Collapsing whitespace keeps every non-whitespace character, in order: the non-space characters of the result are those of the input. |
| Text.NormalizeQuestion | popup.js:50-52 | The key contains only `a-z`, `0-9` and single inner spaces. It is trimmed. |
| Text.NormalizeKeepsLettersAndDigits | popup.js:50-52 | The key keeps exactly the ASCII letters and digits of the lower-cased input, in order: removing its spaces gives the input lower-cased with everything else removed. |
| Text.NormalizeFixedPoint | popup.js:50-52 | A text that already has the shape of a key is its own key, so normalizing twice is normalizing once. |
| Text.Split | popup.js:130 | `split` yields at least one piece, and no piece contains the separator. |
| Text.JoinSplit | popup.js:130 | Joining the pieces of `split` with the separator gives back the text. |
| Text.SplitJoin | popup.js:158 | Splitting a join of separator-free pieces gives back the pieces. |
| Text.JoinTrimmed | popup.js:164 | A join of non-empty trimmed pieces is trimmed, and non-empty when there are pieces. |
| Text.TrimmedNonEmpty | popup.js:158 | `map(trim).filter(Boolean)` keeps only non-empty trimmed lines and never adds any. |
| Text.Lines | popup.js:158 | The lines of a text are non-empty and trimmed. |
| Text.LinesNonEmpty | popup.js:155-158 | A text that is not all whitespace has at least one line. |
| Text.LinesOfJoin | popup.js:158 | Splitting a newline-join of non-empty trimmed lines gives those lines back. |
| Text.TrimKeepsTrimmed | popup.js:47 | Trimming is idempotent. |
| Text.Utf16Length | popup.js:203 | The UTF-16 length lies between the number of scalar values and twice it. |
| Patterns.DeclarationAt | popup.js:140 | A line yields an answer declaration only if it starts with `answer`, `ans` or `correct`, in any case. |
| Patterns.MarkedOptionEnds | popup.js:132 | A line matches the marked-option pattern only if its last character is `*`, `✔` or `)`. |
| Patterns.StripQuestionLabel | popup.js:191 | The result is a suffix of the stem. It is strictly shorter exactly when the stem starts with a `Q`/`Question` label. |
| Patterns.StripQuestionLabelKeeps | popup.js:191 | A stem that does not start with `q` in either case is kept whole. When a label is removed, the whitespace after it goes too, so the result does not start with whitespace. |
| Patterns.SplitOnBlankLines | popup.js:215 | Splitting on blank-line runs yields at least one piece. |
| Patterns.BlankSeparatorEnd | popup.js:215 | A separator starts at a position exactly when a line feed is there and another line feed lies within the whitespace after it. A match takes at least two characters. |
| Patterns.SplitParagraphs | popup.js:215 | Paragraphs joined with one blank line split back into exactly those paragraphs. A paragraph has no whitespace at either end and no blank line inside. |
| Similarity.Bigrams | popup.js:54-60 | There are no bigrams iff the string is empty. A string of length `n >= 2` has `n - 1` of them. |
| Similarity.BuildBigrams | popup.js:54-60 | The loop yields `Bigrams`. Each gram has two characters, or is the whole one-character string. |
| Similarity.Dice | popup.js:62-78 | The denominator is positive. An empty side gives 0, and equal non-empty strings give 1. |
| Similarity.DiceBounded | popup.js:77 | The coefficient never exceeds 1. |
| Similarity.DiceSymmetric | popup.js:62-78 | The coefficient does not depend on the argument order. |
| Similarity.CountBigrams | popup.js:67-68 | The map counts each bigram's occurrences exactly. |
| Similarity.ConsumeBigrams | popup.js:69-76 | The overlap counter ends as the size of the multiset intersection. |
| Similarity.ConsumeStep | popup.js:70-75 | Taking one bigram from the counts leaves the counts of what remains, and the overlap grows by one exactly when an occurrence was left. |
| Similarity.DiceCoefficient | popup.js:62-78 | The method computes `Dice`. |
| Cards.BuildCard | popup.js:263-285 | A card is built iff the stem is non-empty and (a) a flashcard has an answer, or (b) a multiple-choice item names an existing option. The card is well formed and carries the given id and the stem. For multiple choice, the answer is the chosen option. For a flashcard, the answer is the back. The rationale falls back to the answer. |
| Cards.AllowedLengthGap | popup.js:88 | The allowed length difference is at least 8. It is exactly 8 below 34 characters; above that it is the key length divided by 4, rounded half up. |
| Cards.FirstDuplicate | popup.js:80-92 | An empty key finds nothing. Otherwise the result is the first card whose key is non-empty and either equal, or within the length gap with Dice at least 0.9. "None" means no card qualifies. |
| Cards.FindDuplicateCard | popup.js:80-92 | The loop returns `FirstDuplicate`, and the card it returns is in the list. |
| Text.Compact | popup.js:124 | Removing `[\W_]+` leaves only ASCII letters and digits. |
| Parser.LowerDigits | popup.js:111-121 | Lower-casing leaves a string of ASCII digits unchanged, so the number test sees the digits as typed. |
| Parser.FindByText | popup.js:125 | `findIndex` returns the first option whose compacted lower-case text equals the token. |
| Parser.ResolveToken | popup.js:113-127 | A result is a valid option index. A single letter or a 1-based number in range always wins. Otherwise the first option with matching text is chosen. There is no result iff the token is blank or nothing matches. |
| Parser.LetterToken | popup.js:116-119 | A single letter of either case names the option at its alphabet position. |
| Parser.NumberToken | popup.js:120-123 | A number `k` in range names option `k - 1`. |
| Parser.DetectInLine | popup.js:132-149 | A line names a valid option only as a marked option or an answer declaration. |
| Parser.FirstAnswer | popup.js:131-150 | The loop returns the first line's answer, and nothing only when no line names one. |
| Parser.DetectAnswer | popup.js:129-152 | A detected answer is a valid option index. |
| Parser.DetectAnswerSource | popup.js:129-152 | A detected answer comes from the first line that names one, and that line is marked or declares an answer. Nothing is detected iff no line names an option. No options means no answer. |
| Parser.FirstOptionLine | popup.js:160 | `findIndex` is the first line matching the option pattern, or the end. |
| Parser.SortSnoc | popup.js:172-184 | Feeding one more line to the loop is one more `SortStep`. |
| Parser.SortLinesShape | popup.js:172-184 | The loop is still in the options iff nothing trailed. The trailing lines are a suffix of the input lines. |
| Parser.OptionTexts | popup.js:186 | Option texts are non-empty and trimmed. There are never more of them than option lines. |
| Parser.FrontText | popup.js:191 | The stem built from the front lines is trimmed. |
| Parser.BackText | popup.js:190 | The explanation is trimmed. |
| Parser.Assemble | popup.js:185-198 | The stem is non-empty and trimmed. The options are non-empty and trimmed. A detected answer indexes an option. |
| Parser.ParseBlock | popup.js:154-199 | The stem is empty iff the block is all whitespace, and then the whole parse is empty. Stem, back and options are trimmed, and the answer indexes an option. |
| Parser.ParseLines | popup.js:158-198 | Given non-empty trimmed lines, the stem is non-empty and the answer indexes an option. |
| Parser.PlainBlock | popup.js:162-165 | Without option lines, the first line is the stem and the rest, newline-joined, is the back. |
| Parser.ParseQuestionBlock | popup.js:154-199 | The method computes `ParseBlock`. |
| Parser.SortOptionLines | popup.js:172-184 | The loop over the lines from the first option on computes `SortLines`. |
| Parser.SortOneLine | popup.js:173-183 | One iteration performs one `SortStep` with the line's pattern tests. |
| Parser.ScoreConfidence | popup.js:201-210 | The score is at most 100 hundredths. |
| Parser.ScoreOptionsMonotone | popup.js:205-206 | With at least one option, more options never lower the score. The second and the third option each raise it. |
| Parser.ScoreBareStemIsLow | popup.js:201-210 | A short stem with no options and no answer scores below 55. |
| Parser.ScoreComplete | popup.js:201-210 | A question of 12+ units ending in `?`, with 3+ options and an answer, scores 100. |
| Blocks.CleanPieces | popup.js:215 | `map(cleanText).filter(Boolean)` keeps non-empty trimmed pieces. |
| Blocks.BlankLinePieces | popup.js:215 | The blank-line pieces are non-empty and trimmed. |
| Blocks.SetIndicesExact | popup.js:219-223 | The collected starts are increasing and in range. They are exactly the flagged lines. |
| Blocks.StartsExact | popup.js:219-223 | `starts` is exactly the increasing list of lines that look like numbered questions. |
| Blocks.BlocksUpTo | popup.js:226-232 | The blocks cut so far are non-empty and trimmed, at most one per start. |
| Blocks.SplitBlocks | popup.js:212-234 | There are no blocks iff the text is all whitespace. Every block is non-empty and trimmed. |
| Blocks.SplitByBlankLines | popup.js:215-216 | With more than one blank-line piece, those pieces are the blocks. |
| Blocks.JoinedParagraphPieces | popup.js:213-215 | Paragraphs without carriage returns, joined with blank lines, pass `cleanText` unchanged and come back as the blank-line pieces. |
| Blocks.SplitParagraphBlocks | popup.js:212-216 | Two or more such paragraphs joined with blank lines are exactly the blocks, in order. |
| Blocks.SplitTwoParagraphs | popup.js:212-216 | Two questions separated by a blank line are two blocks, each one question. |
| Blocks.SplitSingleBlock | popup.js:224 | With one piece and fewer than two numbered starts, the cleaned text is the only block. |
| Blocks.BlockLinesCover | popup.js:227-231 | The line ranges of consecutive starts together cover the lines from the first start to the end. |
| Blocks.SplitIntoBlocks | popup.js:212-234 | The method computes `SplitBlocks`. |
| Blocks.FindStarts | popup.js:219-223 | The loop computes `Starts`. |
| Blocks.NoteStart | popup.js:221-222 | One iteration extends the starts by the current line when it is flagged. |
| Blocks.CutBlock | popup.js:228-231 | One iteration appends the next cleaned block, when non-empty. |
| Blocks.CutBlocks | popup.js:226-232 | The loop computes `BlocksUpTo` over all starts. |
| Batch.CandidatesUpTo | popup.js:239-245 | `map` produces one item per block. |
| Batch.CandidateAt | popup.js:239-245 | Item `k` is made from block `k`, with id `firstId + k`. |
| Batch.CandidateIds | popup.js:244 | The mapped items carry consecutive ids. |
| Batch.MakeItemConfidence | popup.js:242-244 | The confidence is at most 100. An item is low-confidence iff its confidence is below 55. |
| Batch.ScreenIsKept | popup.js:246-252 | The two filters with the `seen` set keep exactly the first occurrences. |
| Batch.KeptFromCandidates | popup.js:246 | Every kept item has content and is the candidate its id names. |
| Batch.KeptIncreasing | popup.js:246-252 | Kept items stay in input order. |
| Batch.KeptUnique | popup.js:247-252 | No two kept items share a non-empty signature. |
| Batch.KeptComplete | popup.js:247-252 | Every item with content is kept when its signature is empty or no earlier item with content has the same signature. |
| Batch.ScreenedItems | popup.js:239-252 | Every kept item is the parse of one of the blocks, with its flag set by the threshold. |
| Batch.KeptOfBlock | popup.js:239-252 | The i-th kept item is the parse of the block its id names. |
| Batch.CandidateOfBlock | popup.js:239-245 | The candidate at position k is the parse of block k, with id first id plus k. |
| Batch.ParseBatchItems | popup.js:236-253 | Every returned item is the parse of a block of the pasted text. |
| Batch.ParseBatchOrderedUnique | popup.js:236-253 | Returned items are in block order, with no repeated non-empty signature. |
| Batch.ParseBatchKeepsFirstOccurrences | popup.js:246-252 | Each first occurrence among the blocks is returned. |
| Batch.ParseBatchBlank | popup.js:213-214 | A blank paste yields no items. |
| Batch.ParseTwoParagraphs | popup.js:236-253 | Two questions pasted with a blank line between them become two queue items, each parsed from its own block with consecutive ids, unless their stems share a non-empty key. |
| Batch.KeptIsCandidate | popup.js:239-246 | The i-th kept item has content and is the candidate its id names. |
| Batch.BuildItem | popup.js:240-245 | The method builds `MakeItem`. |
| Batch.ParseBatchInput | popup.js:236-253 | The method computes `ParseBatch` and uses one id per block. |
| Batch.MapBlocks | popup.js:239-245 | The loop computes `Candidates`. |
| Batch.FilterItems | popup.js:246-252 | The loop computes the screened items. |
| Acceptance.ItemCard | popup.js:348 | A queued item yields a card iff `buildCard` accepts its parse. The card is well formed and carries the id and the stem. |
| Acceptance.LowItemsSnoc | popup.js:449-452 | Appending an item extends the low-confidence list exactly when the item is low. |
| Acceptance.CardsStep | popup.js:453-466 | One step keeps the earlier cards. Each added card is well formed, takes the next id and, unless forcing, duplicates no earlier card. |
| Acceptance.CardsAppend | popup.js:465-466 | Appending a card with the next id, not duplicating an earlier one unless forcing, keeps the cards' shape. |
| Acceptance.QueueStep | popup.js:449-466 | The step from `n - 1` to `n` items keeps low-confidence items in order. Only rejected items stay behind otherwise. |
| Acceptance.AcceptStepShape | popup.js:448-466 | Handling item `n - 1` takes a pass state that has the shape of `n - 1` items to one that has the shape of `n`. |
| Acceptance.AcceptUpToShape | popup.js:448-467 | After `n` items, the card and queue invariants hold and each item is counted once. |
| Acceptance.AcceptAllShape | popup.js:438-474 | After a pass: the old cards are a prefix; each new card is well formed, numbered in order and (unless forcing) not a duplicate of an earlier card; low-confidence items all remain, in order; other remaining items are rejected ones; added + skipped + remaining = queue length. Which item caused what is stated by `AcceptTurn` and `AcceptTurnKept`. |
| Acceptance.StepFate | popup.js:449-466 | One item's turn: it is skipped iff it is high-confidence and a duplicate (unless forcing); it adds a card iff it is high-confidence, not blocked and `buildCard` accepts it, and then that card is appended; it stays in the queue iff it is low-confidence or rejected. |
| Acceptance.AcceptTurn | popup.js:448-467 | For the `k`-th item of the queue, against the cards as they are at its turn: it counts as skipped iff it is high-confidence and blocked as a duplicate; it counts as added iff it is high-confidence, not blocked and buildable; it stays queued iff it is low-confidence or rejected. |
| Acceptance.AcceptTurnKept | popup.js:448-467 | A card added at the `k`-th item's turn is exactly `buildCard`'s card for that item, and it keeps its place in the final card list. So the new cards are the cards of the added items, in queue order. |
| Acceptance.UpToExtends | popup.js:448-467 | The card list only grows during the pass: the cards after `k` items are a prefix of the cards after `m >= k` items. |
| Acceptance.AcceptAllLowOnly | popup.js:449-452 | A queue of only low-confidence items is left as it is, and nothing is added. |
| Acceptance.FindItem | popup.js:337 | The lookup finds a queued item with the id, or reports that none has it. |
| Acceptance.RemoveId | popup.js:344 | Removing by id keeps exactly the other items and shrinks the queue when the id was present. |
| Acceptance.RemoveIdConcat | popup.js:344 | The filter works item by item: filtering a concatenation is filtering each part, so the kept items stay in their order. |
| Acceptance.AddSingleOutcomes | popup.js:336-361 | An unknown id, or an outcome of "needs review", changes nothing. A blocked duplicate only leaves the queue. `Added` appends one well-formed card for that item (not a duplicate unless forcing), removes the item and takes one id. |
| Acceptance.AddSingleTriggers | popup.js:336-361 | Which outcome occurs: "duplicate blocked" iff the item is found and blocked; "needs review" iff it is found, not blocked and `buildCard` rejects it; "added" iff it is found, not blocked and buildable, and then the new card is `buildCard`'s card for it. |
| Acceptance.Workspace.AddAllHighConfidence | popup.js:438-474 | The method's new state is `AcceptAll` of the old state. An empty queue changes nothing. |
| Acceptance.Workspace.AddSingleBatchItem | popup.js:336-361 | The method's new state and message are `AddSingle` of the old state. |
| Acceptance.Workspace.RemoveBatchItem | popup.js:398-401 | The "Remove" button drops every queued entry with the id. The cards and the id counter are unchanged. |
| Scenarios.Parse1 | popup.js:154-199 | `What is 2+2?` with options `A) 3`, `B) 4`, `C) 5` and `Answer: B` parses to options `3, 4, 5`, answer index 1, back `B`. |
| Scenarios.Score1 | popup.js:201-210 | That parse scores 100. |
| Scenarios.Build1 | popup.js:263-285 | Its card's answer is `4`. |
| Scenarios.Parse2 | popup.js:162-165 | `Capital of France` / `Paris` parses as a flashcard stem and back. |
| Scenarios.Build2 | popup.js:263-285 | That flashcard is built with answer and rationale `Paris`. |
| Scenarios.Parse5 | popup.js:172-198 | In `1) Alpha` / `2) Beta` / `(correct)`, the marker on its own line is folded into the option text `Beta (correct)`. No answer is detected, there is no back, and the stem falls back to the first line `1) Alpha`. |
| Scenarios.Outcome5 | popup.js:244 | That item scores below 55, and `buildCard` rejects it. |
| Scenarios.SameKey6 | popup.js:50-52 | `2+2?` and `2 + 2?` both normalize to the key `2 2`: symbols become spaces, runs of spaces collapse, and the ends are trimmed. |

## Left out

- The DOM, the editor fields, buttons and rendering are left out: the drawing part of `renderBatchQueue` (its Remove button's handler, popup.js:398-401, is modelled as `Workspace.RemoveBatchItem`), `showMessage` and its timer, `getEditorOptions`, `setEditorOptions`, `updateCorrectButtons`, `loadParsedIntoEditor`. They are user-interface code.
- Chrome storage, saving and loading the card list, clipboard reading, OCR, and export are left out. They are I/O.
- `uid()` is a natural-number counter, not a random UUID. `now()` is a parameter. Only the fact that each card gets the next fresh id is modelled.
- `createCardFromInputs` (popup.js:413-436) is left out. It reads the editor fields rather than imported text. Its duplicate check and card construction are `FindDuplicateCard` and `BuildCard`, which are modelled.
- Text.LowerChar: only ASCII capitals, U+0130 and U+212A are mapped. Other non-ASCII letters keep their case. Every use blanks non-ASCII characters afterwards, so keys and comparisons are unaffected.
- Cards.BuildCard: `easeFactor` is kept as the real 2.5. Tags, domain and the review fields are constants.
- Similarity.Bigrams: counts and slices Unicode scalar values, not UTF-16 code units, so it differs from `buildBigrams` on text with astral characters (for `a😀` the source makes two grams, one of them a lone surrogate, and the model makes one). None reach it from `findDuplicateCard`, which passes only comparison keys made of `a-z`, `0-9` and spaces.
- Parser.ScoreConfidence: the float sum and `toFixed(2)` are integer hundredths. The JavaScript sum rounds to the same hundredth for every combination of weights.
- Parser.ScoreConfidence: the contract states only the bound. Its meaning is carried by the lemmas `ScoreOptionsMonotone`, `ScoreBareStemIsLow` and `ScoreComplete`.
- The concurrent saving of state after `addSingleBatchItem` and `addAllHighConfidence` is left out. It is asynchronous storage I/O.
