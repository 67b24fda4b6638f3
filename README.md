# Remedian in Dafny

A model of the `Remedian` class of `index.js`, with proofs about it. The class is
a streaming median estimator that keeps a hierarchy of fixed-size buffers
("levels"), each with `bufferSize` slots.

- **Write.** A write inserts the number into level 0.
- **Cascade.** While the level just written to is full, the write:
  - replaces the number by that level's exact median,
  - clears the level,
  - moves one level up, creating that level if needed,
  - inserts again.
- **Read.** Reading the estimate gives one of three answers:
  - nothing, before the first write;
  - slot 0 of the level where the last write stopped, when that is the only value that can matter;
  - otherwise, the weighted median of every value held, where a value at level `j` stands for `bufferSize^j` written numbers.

The project has these modules:

- `Wrappers` (wrappers.dfy): `Option`. It stands for an empty slot and for "no estimate".
- `Sorting` (sorting.dfy): the stable sort by a numeric key that the estimator relies on, and sums over sequences.
- `Medians` (medians.dfy): the exact median of a full buffer and the weighted median.
  - Each is a specification function.
  - The weighted median also has the source's loop as a method, proved equal to that function.
  - The lemmas prove that each result really is a median.
- `Hierarchy` (hierarchy.dfy): the levels as values.
  - `Start`, `Carry`, `Settle` and `Write` model the write cascade as functions.
  - `Estimate` models the reading of the estimate.
  - The lemmas prove the invariants a write preserves.
- `Estimator` (remedian.dfy): the class itself.
  - Its levels are arrays of slots, and it has a field for the current level.
  - Each source method is a method whose contract ties the new state to the functions of `Hierarchy`.
- `Runs` (runs.dfy): a fresh instance followed by a sequence of writes.
  - It proves what every such run leaves behind.
  - It covers the first `bufferSize` writes exactly.
  - It covers the two scenarios of index.test.js:64-81.
- `Clients` (clients.dfy): code that builds an estimator, writes to it and reads it, as index.test.js:63-82 does.
  - `WriteAll` proves that `new Remedian(n)` followed by one `Write` per number reaches the state `Runs.Run` describes.
- `MedianVectors` (median_vectors.dfy): the eight weighted-median cases of index.test.js:13-53.
- `AsWritten` (aswritten.dfy): reading the estimate exactly as index.js:159-169 is written, on a small model of JavaScript numbers (see "## Findings").

Numbers are exact reals, and a slot is `Option<real>`.

Which levels make the estimate weighted: the code (index.js:131-136, `Hierarchy.ShouldWeight`) takes the weighted path when any level other than the topmost holds a value, or when slot 1 of the current level is occupied. The current level counts too when it is not the top. With bufferSize 3, after the writes 1, 2, 3, 10 the current level is 0: it holds only 10, and its slot 1 is empty. Level 1 holds 2. Level 0 is below the top and holds a value, so the estimate is the weighted median of 10 and 2, which is 2, not the 10 in slot 0 (`AsWritten.CurrentLevelCounts`). The model follows the code.

The weight of a value at level j: the constructor stores the buffer size as `this.bufferSize` (index.js:15), but index.js:165 raises `this.buffer_size`, a property that is never set, to the power j. Everything else in the code makes a value at level j stand for bufferSize^j written numbers: each carry replaces the bufferSize values of a full level j by one value at level j + 1 (`Hierarchy.CarryMass`, `Hierarchy.SettleMass`, `Runs.RunFacts`). The main model therefore weights a value at level j by bufferSize^j. The code as written is modelled in `AsWritten` (see "## Findings").

## Model

| member | source | states |
|---|---|---|
| Estimator.Remedian.constructor | index.js:14-17 | a new estimator has no levels and the given buffer size, and owns only fresh objects, so its caller may go on to write to it |
| Estimator.Remedian.CreateBuffer | index.js:19-26 | an empty level of bufferSize slots is appended exactly when the current level is past the last one; otherwise nothing changes |
| Estimator.Remedian.IsCurrentBufferFull | index.js:28-31 | true exactly when the current level is full (its last slot occupied) |
| Estimator.Remedian.BufferEmpty | index.js:38-46 | true exactly when no slot of the level holds a number |
| Estimator.Remedian.InsertIntoBuffer | index.js:53-66 | the number goes into the first empty slot of the current level; every other slot and level is unchanged; a full level is left as it is; the result says whether the level is now full |
| Estimator.FillFirstFree | index.js:54-64 | the slot array after the search-and-store loop is Insert of the array before it |
| Estimator.Remedian.CurrentBufferMedian | index.js:68-78 | the exact median of the values of the full current level; the level itself is not reordered |
| Estimator.Remedian.ClearCurrentBuffer | index.js:119-124 | the current level becomes all empty slots; nothing else changes |
| Estimator.Remedian.ShouldCalculateWeightedMedian | index.js:130-137 | true exactly when some level other than the top one holds a value, or slot 1 of the current level is occupied |
| Estimator.Remedian.GetValuesFromBuffer | index.js:139-148 | the numbers of the occupied slots of a level, in slot order |
| Estimator.Remedian.CollectWeighted | index.js:160-168 | the values of all levels, bottom up, and one weight per value, bufferSize^j for a value at level j |
| Estimator.Remedian.WeightedOfAll | index.js:159-169 | on the weighted path the inputs meet the weighted median's precondition, and the result is the weighted median of everything held |
| Estimator.Remedian.GetMedian | index.js:154-173 | the answer is Estimate of the state; after any write the answer is the weighted median of all values held; nothing is modified |
| Estimator.Remedian.ReadTwice | index.js:154-173 | two reads in a row give the same answer |
| Estimator.Remedian.InsertCreating | index.js:182-188 | the current level is created if missing and the number inserted into it; a newly created level is not full when bufferSize is not 1 |
| Estimator.Remedian.InsertAtBottom | index.js:180-184 | the current level becomes 0, level 0 is created on the first write, and the new levels are Start of the old |
| Estimator.Remedian.PromoteMedian | index.js:185-188 | one round of the loop turns the levels into Carry of the old levels, and the current level moves up by one |
| Estimator.Remedian.Cascade | index.js:184-189 | the loop ends with the state Settle says, from the level just written to |
| Estimator.Remedian.Write | index.js:179-190 | the new state is Hierarchy.Write of the old; from quiet levels (none full) it leaves the levels settled |
| Hierarchy.IsFull | index.js:28-31 | a level is full when its last slot holds a number; a level of no slots never is |
| Hierarchy.IsEmpty | index.js:38-46 | no slot of the level holds a number |
| Hierarchy.Values | index.js:139-148 | the numbers in the occupied slots of a level, in slot order |
| Hierarchy.Insert | index.js:53-64 | the number goes into the first empty slot, and a level with no empty slot is unchanged; the level keeps its length |
| Hierarchy.Grow | index.js:19-26 | an empty level of bufferSize slots is appended exactly when the current index is past the last level |
| Hierarchy.ShouldWeight | index.js:130-137 | some level other than the topmost holds a value, or slot 1 of the current level is occupied |
| Hierarchy.Settle | index.js:184-189 | while the level reached is full, carry its median one level up; stop at the first level left not full |
| Hierarchy.CarryOn | index.js:184-189 | one carry out of the full level, then settling from the level above |
| Hierarchy.Write | index.js:179-190 | a write starts at level 0, inserts there (creating level 0 on the first write) and settles the cascade |
| Hierarchy.OneSlotLoopNeverEnds | index.js:184-189 | with bufferSize 1 every insert leaves its level full, and one round of the loop gives well-formed levels with the next current level existing, so the loop never ends |
| Hierarchy.Estimate | index.js:154-173 | none before the first write; the weighted median of all values when ShouldWeight holds; otherwise slot 0 of the current level |
| Hierarchy.AllValues | index.js:160-168 | the values of every level, bottom level first |
| Hierarchy.AllWeights | index.js:160-168 | one weight per value, bufferSize^j for a value at level j |
| Hierarchy.EmptyLevel | index.js:21-22 | a new level has bufferSize slots, all empty |
| Hierarchy.FirstFree | index.js:55-61 | the index of the first empty slot, or the length when none is empty; every slot before it is occupied |
| Hierarchy.InsertAppends | index.js:53-66 | inserting keeps the occupied slots a prefix; into a level that is not full it appends the number to the level's values; a full level is unchanged |
| Hierarchy.PrefixShape | index.js:53-66 | a level whose occupied slots form a prefix is its values followed by empty slots |
| Hierarchy.FullShape | index.js:28-31 | for such a level, "last slot occupied" holds exactly when every slot is occupied, and "empty" exactly when it has no values |
| Hierarchy.ValuesOfShape | index.js:139-148 | the values of a level filled with vs and then empties are vs |
| Hierarchy.EmptyLevelFacts | index.js:119-124 | an emptied level is prefix-filled, empty, not full and has no values |
| Hierarchy.Carry | index.js:184-188 | one carry keeps the levels well formed and creates the next level only when it was missing; a level just created is not full after the carry |
| Hierarchy.CarryStep | index.js:184-189 | the step-by-step round (median, clear, move up, create, insert) is Carry, and settling from the full level is settling from the level above it |
| Hierarchy.Start | index.js:180-184 | the first insert of a write keeps the levels well formed and creates level 0 only on the first write |
| Hierarchy.CarryFacts | index.js:185-188 | after a carry the full level is empty, the level above holds a value, and no other level changes |
| Hierarchy.CarryMass | index.js:184-188 | a carry keeps the number of written values the levels stand for |
| Hierarchy.CarryLeavesOthers | index.js:184-189 | after a carry out of the only full level, only the level above it can be full |
| Hierarchy.CarryKeeps | index.js:184-189 | a carry keeps the cascade's invariant: only the level above may be full, the levels below are empty, the top holds a value |
| Hierarchy.SettleShape | index.js:184-189 | the cascade ends at or above where it started, adds at most one level and changes nothing above where it ended |
| Hierarchy.SettleSettled | index.js:184-189 | the cascade ends with no level full, every level below the current one empty and the current one holding a value |
| Hierarchy.SettleMass | index.js:184-189 | the cascade keeps the number of written values the levels stand for |
| Hierarchy.SettleWellFormed | index.js:184-189 | the cascade keeps the levels well formed and ends at an existing level |
| Hierarchy.SettleFacts | index.js:184-189 | the cascade's shape, settledness and mass facts together |
| Hierarchy.StartFacts | index.js:180-184 | the first insert fills level 0 with a value, leaves every higher level unchanged and adds one to the mass |
| Hierarchy.WriteWellFormed | index.js:179-190 | a write keeps the levels well formed and ends at an existing level |
| Hierarchy.WriteSettles | index.js:179-190 | from quiet levels a write leaves them settled; it adds at most one level, and creates level 0 on the first write; nothing above where it stopped changes; the mass grows by one |
| Hierarchy.Copies | index.js:164-165 | c copies of a value, as `new Array(c).fill(w)` builds them; used for both the intended and the literal weights |
| Hierarchy.AllWeightsFacts | index.js:160-168 | one weight per value, none negative, adding up to the number of values written |
| Hierarchy.LevelCounted | index.js:160-168 | the values of a level are among all the values (as a multiset), and each stands for bufferSize^j of the mass |
| Hierarchy.LevelAmongAll | index.js:160-168 | the values of a level are a sub-multiset of all the values |
| Hierarchy.LevelMass | index.js:160-168 | a level's values stand for at most the mass of the levels, bufferSize^j each |
| Hierarchy.AllWeightsWhole | index.js:164-165 | every weight collected is a whole number |
| Hierarchy.WeightedPathRoundingHarmless | index.js:109 | whenever the weighted path is taken, the source's rounded tie test gives the same weighted median as the exact one |
| Hierarchy.WeightedPathInput | index.js:159-169 | whenever the weighted path is taken, the inputs meet the weighted median's precondition |
| Hierarchy.AllOfEmpty | index.js:160-168 | levels that are all empty contribute no value and no weight |
| Hierarchy.EstimateIsWeightedMedian | index.js:154-173 | after any write, the estimate is the weighted median of all values held, each weighing bufferSize^level, on both the fast and the weighted path |
| Hierarchy.EstimateNoneIff | index.js:155-157 | the estimate is none exactly when there are no levels |
| Hierarchy.SingleLevelExact | index.js:159-172 | with one level after a write, the estimate is the exact median of its values |
| Medians.Middle | index.js:71-77 | the middle element, or the mean of the two middle elements for an even length |
| Medians.ExactMedian | index.js:68-78 | the middle of the numbers sorted ascending |
| Medians.SortedPairs | index.js:90-97 | the value-weight pairs sorted stably by value |
| Medians.MedianOfSorted | index.js:99-113 | the first position after which at most half the total weight lies; on an exact tie the mean of its value and the next |
| Medians.WeightedMedianOf | index.js:86-114 | MedianOfSorted of the sorted pairs |
| Medians.Zip | index.js:90-91 | the pairs are the values with their weights, position by position |
| Medians.ZipWeights | index.js:99 | the weights of the pairs add up to the sum of the weights |
| Medians.SortedAscending | index.js:70 | the sorted copy is in ascending order |
| Medians.SortedElement | index.js:70 | every element of the sorted copy is an element of the level |
| Medians.MiddleIsMedian | index.js:71-77 | the middle of an ascending sequence (the mean of the two middle elements for an even length) has at most half the elements strictly below and at most half strictly above, and lies between the two middle elements |
| Medians.ExactMedianIsMedian | index.js:68-78 | the exact median has at most half the values strictly below it and at most half strictly above, and lies between two of the values |
| Medians.LowerMedianIndex | index.js:101-107 | the loop stops at the first position after which at most half the weight lies |
| Medians.LowerMedianIndexUnique | index.js:101-107 | that position is the only one with this property |
| Medians.SortedPairsFacts | index.js:87-99 | the sorted pairs keep every weight, none negative, and the total |
| Medians.WeightedMedian | index.js:86-114 | the loop of the source (running sum from total minus first weight, one weight subtracted per step) returns the weighted median |
| Medians.TieHalves | index.js:109-110 | on an exact tie the mean of the two middle values lies between them and splits the weight in halves |
| Medians.NoTieHalves | index.js:111-112 | without a tie the value where the loop stopped splits the weight in halves |
| Medians.MedianOfSortedIsMedian | index.js:101-113 | the result computed from sorted pairs has at most half the weight strictly below and strictly above it, and lies between two of the values |
| Medians.WeightedMedianIsMedian | index.js:86-114 | the weighted median has at most half the total weight strictly below it and at most half strictly above, and lies between two of the input values |
| Medians.SortedMedianHalves | index.js:86-114 | the halves property measured on the sorted pairs |
| Medians.WeightedMedianBetween | index.js:86-114 | the weighted median lies between two of the input values |
| Medians.SortedPairValue | index.js:92-97 | every value of the sorted pairs is one of the input values |
| Medians.WeightAfterStep | index.js:105-106 | one loop step subtracts exactly the next weight from the running sum |
| Medians.WeightAfterMono | index.js:104-107 | with no negative weight, the running sum never grows |
| Medians.MedianAt | index.js:101-113 | the result computed from sorted pairs whose loop stops at k is the value at k, or, on a tie, the mean of the values at k and k + 1 |
| Medians.SingleWeighted | index.js:86-114 | a single value with positive weight is its own weighted median |
| Medians.SortUnit | index.js:92-94 | with every weight one, sorting the pairs sorts the values |
| Medians.UnitMedianOfSorted | index.js:101-113 | with every weight one, the result computed from sorted pairs is the middle |
| Medians.UniformWeights | index.js:68-114 | with every weight one, the weighted median is the exact median |
| Medians.Round | index.js:109 | Math.round: the integer nearest to x, halves rounded up |
| Medians.RoundedTieMisses | index.js:109 | with the source's rounded tie test, values 1, 2 and weights 1.2, 0.8 give 1.5, which has more than half the weight below it; the exact rule gives 1 |
| Medians.RoundedAgreesSorted | index.js:101-113 | with whole weights the rounded and the exact tie test give the same result on sorted pairs |
| Medians.RoundedAgreesAt | index.js:109 | when the weight after the stopping position is whole, fractional weights included, the rounded tie test gives the same result as the exact one |
| Medians.RoundedAgreesOnWholeWeights | index.js:109 | with whole weights, as in every weighted median that reading the estimate computes, the rounded tie test agrees with the exact one |
| Sorting.InsertBy | index.js:92-94 | inserts an element before the first element with a larger key; the result is one longer |
| Sorting.SortBy | index.js:92-94 | the insertion sort by key standing for Array.prototype.sort (also index.js:70); the result has the same length |
| Sorting.InsertByPermutes | index.js:92-94 | an insert adds exactly the new element |
| Sorting.InsertBySorted | index.js:92-94 | inserting into a sorted sequence keeps it sorted |
| Sorting.SortByPermutes | index.js:92-94 | sorting is a permutation |
| Sorting.SortBySorted | index.js:92-94 | sorting gives ascending keys |
| Sorting.SortByStable | index.js:92-94 | elements with equal keys keep their relative order |
| Sorting.SortByIdentity | index.js:92-94 | an already sorted sequence is unchanged by sorting |
| Sorting.SortByIdempotent | index.js:92-94 | sorting twice is sorting once |
| Sorting.SumOfSort | index.js:99 | sorting keeps any sum over the elements, in particular the total weight |
| Clients.WriteNext | index.js:179-190 | one more write on an estimator in the state of a run gives the run with that number appended |
| Clients.WriteAll | index.js:179-190 | a fresh estimator followed by one write per number reaches the state Runs.Run describes |
| Clients.FirstWriteCreatesBuffer | index.test.js:64-69 | a new estimator has no level, and one write on it creates exactly one |
| Clients.CascadeCreatesBuffer | index.test.js:71-81 | with bufferSize 3, writes 1, 2 leave one level; after writing 3 there are two levels, slot 0 of level 1 holds 2, and the estimate is 2 |
| MedianVectors.SevenFromThirds | index.test.js:14-18 | the weighted median of 7, 1, 2, 4, 10 with weights 1, 1/3, 1/3, 1/3, 1 is 7, under both the exact and the rounded tie test |
| MedianVectors.UnitWeights | index.test.js:19-23 | the same values with unit weights give 4, under both the exact and the rounded tie test |
| MedianVectors.EvenTie | index.test.js:24-28 | 7, 1, 2, 4, 10, 15 with weights 1, 1/3, 1/3, 1/3, 1, 1 give 8.5, under both the exact and the rounded tie test |
| MedianVectors.EvenTiePresorted | index.test.js:29-33 | the same pairs given in sorted order give 8.5, under both the exact and the rounded tie test |
| MedianVectors.HeavySecond | index.test.js:34-38 | 0, 10, 20, 30 with weights 30, 191, 9, 0 give 10, under both the exact and the rounded tie test |
| MedianVectors.TieBetweenTwoAndThree | index.test.js:39-43 | 1, 2, 3, 4, 5 with weights 10, 1, 1, 1, 9 give 2.5, under both the exact and the rounded tie test |
| MedianVectors.Unsorted | index.test.js:44-48 | 30, 40, 50, 60, 35 with weights 1, 3, 5, 4, 2 give 50, under both the exact and the rounded tie test |
| MedianVectors.ZeroWeights | index.test.js:49-53 | the nine-value case with zero weights gives 1.7, under both the exact and the rounded tie test |
| Runs.Run | index.js:179-190 | any sequence of writes into a fresh estimator keeps its levels well formed |
| Runs.RunFacts | index.js:179-190 | after any run no level is full, and after a non-empty run the state is settled; the mass equals the number of writes |
| Runs.RunEstimate | index.js:154-173 | after a run the estimate is none exactly when nothing was written; otherwise it is the weighted median of all values held, whose weights add up to the number of writes |
| Runs.LevelsBound | index.js:19-26 | after k writes there are at most 1 + log_bufferSize(k) levels, each with fewer than bufferSize values (bounded memory) |
| Runs.QuietBound | index.js:184-189 | levels with none full and a non-empty top stand for at least bufferSize^(top) writes |
| Runs.RunLast | index.js:179-190 | a run is the run without its last number, then one write of it |
| Runs.WriteNoCarry | index.js:184 | a write whose first insert leaves level 0 not full stops at level 0 |
| Runs.WriteOneCarry | index.js:184-189 | a write that fills level 0, where the carried median leaves level 1 not full, stops at level 1 |
| Runs.WriteAppends | index.js:53-66 | a write into a level 0 with two or more empty slots appends to level 0 and changes nothing else |
| Runs.CarryAppends | index.js:185-188 | carrying level 0 empties it and appends its exact median to level 1 |
| Runs.WriteCarriesOnce | index.js:184-189 | a write that fills level 0 empties it and appends the exact median of its values, the new number last, to level 1 |
| Runs.RunShort | index.js:179-190 | fewer than bufferSize writes keep one level, holding the numbers in order |
| Runs.RunFull | index.js:184-189 | the bufferSize-th write empties level 0 and creates level 1, holding the exact median of the numbers |
| Runs.FirstCarry | index.js:184-189 | carrying a full single level creates level 1 with its exact median and stops there |
| Runs.ExactUpToFirstCarry | index.js:154-173 | up to and including the first carry, the estimate is the exact median of everything written |
| Runs.ShortEstimate | index.js:159-172 | with one partly filled level, the estimate is the exact median of its values |
| Runs.FullEstimate | index.js:159-172 | with level 0 empty and one value in level 1, the estimate is that value |
| Runs.FirstWriteCreatesLevel | index.test.js:64-69 | a fresh estimator has no levels, and one write creates exactly one |
| Runs.CascadeExample | index.test.js:71-81 | with bufferSize 3, writing 1, 2 keeps one level; writing 3 as well gives two levels with 2 in slot 0 of level 1 |
| Runs.MedianOfThree | index.test.js:79-80 | the exact median of 1, 2, 3 is 2 |
| AsWritten.LiteralWeights | index.js:162-168 | the weights as written: undefined ** j for every value at level j |
| AsWritten.Total | index.js:99 | the left-to-right sum of the weights from 0 on JavaScript numbers |
| AsWritten.Scan | index.js:101-107 | the loop as written: step on while the running sum exceeds half the total; a step past the end makes the sum NaN |
| AsWritten.LiteralWeightedMedian | index.js:86-114 | the weighted median as written on JavaScript numbers, undefined included |
| AsWritten.LiteralEstimate | index.js:154-173 | getMedian as written: Estimate with the literal weights |
| AsWritten.CurrentLevelCounts | index.js:130-137 | with bufferSize 3, after writes 1, 2, 3, 10 the current level 0 holds only 10 and its slot 1 is empty, yet the weighted path is taken and the estimate is 2 |
| AsWritten.FourHeld | index.js:160-168 | that state yields values 10, 2 with weights 1, 3 and takes the weighted path |
| AsWritten.FourWeighted | index.js:86-114 | the weighted median of 10, 2 with weights 1, 3 is 2 |
| AsWritten.UndefinedPow | index.js:165 | undefined ** j is NaN exactly when j > 0 (and 1 at j = 0) |
| AsWritten.LiteralWeightsNaN | index.js:162-168 | as written, any value held above level 0 gets a NaN weight |
| AsWritten.TotalNaN | index.js:99 | one NaN weight makes the total NaN |
| AsWritten.NaNWeightGivesLeast | index.js:99-113 | as written, with a NaN weight the loop never runs, the tie test fails, and the result is the least value |
| AsWritten.LiteralEstimateIsLeast | index.js:154-173 | as written, whenever two or more levels exist after a write on the weighted path, the estimate is the least value held |
| AsWritten.BugRun | index.js:179-190 | with bufferSize 3, writing 1, 2, 3, 10, 11, 12, 20 leaves 20 in level 0 and 2, 11 in level 1 |
| AsWritten.BugHeld | index.js:160-168 | that state yields the values 20, 2, 11 with intended weights 1, 3, 3 and literal weights 1, NaN, NaN |
| AsWritten.BugIntended | index.js:86-114 | the weighted median of 20, 2, 11 with weights 1, 3, 3 is 11 |
| AsWritten.BugLiteral | index.js:99-113 | with weights 1, NaN, NaN, the literal weighted median is 2 |
| AsWritten.WeightBugExample | index.js:165 | after those writes the intended estimate is 11 and the literal one is 2 |

## Left out

- Floating point: numbers are exact reals, so rounding error and the non-finite values of IEEE doubles are not modelled. `AsWritten` models a JavaScript number only as a finite real or NaN.
- Medians.WeightedMedian: its tie test is exact equality (`sum == S/2`), not `Math.round(sum) == S/2`. The rounding exists to absorb float error. The source's rounded rule is modelled separately as `WeightedMedianRoundedOf` (see "## Findings"). Reading the estimate only ever uses whole weights (`Hierarchy.AllWeightsWhole`), and with whole weights the two rules agree (`RoundedAgreesOnWholeWeights`, `Hierarchy.WeightedPathRoundingHarmless`).
- Medians.WeightedMedian: requires at least one value, one weight per value, no negative weight and a positive total. The source does not check these. Outside them the source may return undefined, NaN, or an ordinary number that is not a weighted median (weights -1, 3 or 0, 0, or a weight array longer than the values, which is silently cut). Reading the estimate never calls it that way (`Hierarchy.WeightedPathInput`).
- Estimator.Remedian.Write: requires bufferSize other than 1. With one slot per level every new level is full at once and the loop of index.js:184-189 never ends (see "## Findings"). bufferSize 0 is allowed, as in the source, and makes every write a no-op insert.
- Estimator.Remedian.InsertCreating: of a newly created level, the contract only states that it is not full when bufferSize is not 1. It does not state that the level holds exactly one value.
- Estimator.Remedian.GetMedian: the weighted-median reading of its result is stated only for the settled states that writes produce. The first ensures (`Estimate`) covers every state.
- The weight at index.js:165: the main model weights a value at level j by bufferSize^j, the number of writes it stands for. The code as written reads the unset `this.buffer_size` and is modelled in `AsWritten` only (see "## Findings").
- this.i: the source leaves it undefined until the first write; the constructor here sets it to 0. Nothing reads it before a write sets it.
- `undefined` as the empty slot: it is `Option.None`. The source's loose `!= undefined` also treats `null` as empty; values are reals here, so no null can be written.
- Array.prototype.sort (index.js:70 and 92-94) is modelled as a stable insertion sort by key (`Sorting.SortBy`). Stability matters because equal values with different weights keep their order. The engine's own algorithm is not modelled.
- Object.seal (index.js:23) and module.exports (index.js:193): no behaviour to model.
- Input validation: the source checks nothing, and non-numeric input, non-finite numbers and non-integer buffer sizes are outside the model (bufferSize is a `nat`).
- The Jest harness (index.test.js): its expectations are stated as lemmas (`MedianVectors`, `Runs.FirstWriteCreatesLevel`, `Runs.CascadeExample`), not run.

## Findings

| source | as written | input that shows it | evidently intended | confidence | as-written member | corrected member |
|---|---|---|---|---|---|---|
| index.js:165 | the weight of a value at level j is `this.buffer_size**j`, but the constructor sets `this.bufferSize` (index.js:15), so the weight is `undefined**j`: 1 at level 0 and NaN above it; the total is NaN, the loop never runs and the estimate is the least value held | bufferSize 3, writes 1, 2, 3, 10, 11, 12, 20: the levels hold 20 and 2, 11; the estimate as written is 2 | weight bufferSize^j, estimate 11 (the weighted median of 20, 2, 11 with weights 1, 3, 3) | not executed | AsWritten.WeightBugExample | Hierarchy.EstimateIsWeightedMedian |
| index.js:184-189 | the constructor (index.js:14-17) accepts any buffer size, but with bufferSize 1 every insert fills its level, so the loop of `write` never ends | `new Remedian(1).write(x)` for any x | a buffer size of at least 2 (or a rejection of 1); the model's `Write` requires bufferSize other than 1 and is proved to end with settled levels | not executed | Hierarchy.OneSlotLoopNeverEnds | Estimator.Remedian.Write |
| index.js:109 | the tie test `Math.round(sum) == S/2` treats a running sum within 0.5 of half the total as a tie | `_weightedMedian([1, 2], [1.2, 0.8])`: the sum 0.8 rounds to 1 = S/2, so the result is 1.5, which has 1.2 of the total 2 below it | an exact tie test (the rounding only absorbs float error); the result is 1, a weighted median | not executed | Medians.RoundedTieMisses | Medians.WeightedMedianIsMedian |
