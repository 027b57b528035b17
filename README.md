# Multiway number partitioning, modelled and proved in Dafny

This project models the partitioning heuristics of the n-partition
repository. Each takes a list of integers and a group count `k` and returns
groups whose sums should be close. The model also covers the three instance
readers that load the benchmark files.

- **Java `Partition`**:
  - List Scheduling (`LS`) over a `PriorityQueue` of `{sum, idx}` pairs.
  - `LPT`, which sorts in place and then calls `LS`.
  - Both `MULTIFIT` overloads: a fixed number of bisection steps on the bin capacity.
  - `FFD` over a `TreeSet<Bin>`, including its two defects.
- **C++ `partition::FFD`**, over a `std::multiset<Bin>`.
- **Python `greedy` and `lpt`**.
- **Java `LRMPartition`**: both `lrmGeneric` and both `lrm` overloads.
- **The instance readers**: Java `parseInstances`, C++ `readInstances` and Python `read_instances`, each run over the lines of a file.

## Layout

| file | module | models |
|---|---|---|
| `errors.dfy` | `Errors` | the exceptions the code raises, `Result` and `Option` |
| `groups.dfy` | `Groups` | sums, concatenation of groups, the makespan, descending sort, and group assignment by a choice sequence plus the "smallest sum" rules |
| `heap.dfy` | `JavaHeap` | `java.util.PriorityQueue` as an array-backed binary heap: `offer`, `poll`, sift up and sift down |
| `java_partition.dfy` | `JavaPartition` | `LS`, `LPT`, `MULTIFIT` and `FFD` of `Partition.java` |
| `cpp_partition.dfy` | `CppPartition` | `FFD` of `Partition.cpp` |
| `py_partition.dfy` | `PyPartition` | `greedy` and `lpt` of `partition.py` |
| `lrm_generic.dfy` | `LrmGeneric` | the two `lrmGeneric` methods |
| `lrm_chunked.dfy` | `LrmChunked` | the two `lrm` methods |
| `text.dfy` | `Text` | white space, `trim`/`strip`, token splitting, decimal printing, and the integer parsers: `Integer.parseInt`, Python `int()` and `istringstream >> int` |
| `instance_file.dfy` | `InstanceFile` | the instance file layout the generators write |
| `java_reader.dfy`, `cpp_reader.dfy`, `py_reader.dfy` | `JavaReader`, `CppReader`, `PyReader` | the three readers |

### Modelling approach

- **Code that changes state is modelled as imperative Dafny.** Each such method is proved equal to a specification function:
  - Loops and in-place sorting: `LS`, `LPT`, the `MULTIFIT` loops, both `FFD`s, `greedy`, the LRM loops and the reader loops.
  - A reader's `InstanceData` is a `class` whose fields the line handlers update.
- **Lemmas carry the promised properties.** They are stated about the specification functions: permutation of the input, the selection rules, the bounds, and read-back of generated files.
- **Error paths are kept.** A thrown exception becomes an `Err` of `Errors.Error`:
  - Java's `IllegalArgumentException`, `ArithmeticException`, `IndexOutOfBoundsException` and `NoSuchElementException`.
  - Python's `ValueError` and `AttributeError`.
- **The Java priority-queue tie order is modelled exactly.** Each heap method follows the JDK's sift-up and sift-down steps. `LS` therefore has one deterministic result; its contract states only that each item goes to *a* group of smallest sum.
- **Python `greedy` is specified by its own rule.** It sends each item to the *lowest-index* group of smallest sum. `PyPartition.GreedyProperties` proves that this rule admits only one run.

## Model

| member | source | states |
|---|---|---|
| Groups.MaxGroupSum | java/src/experiment/ExperimentRunner.java:100-107 | the makespan is the largest group sum floored at 0 (0 for no groups): it is at least 0 and every group sum, and when positive it is reached by some group |
| Groups.MakespanLowerBound | java/src/experiment/ExperimentRunner.java:100-107 | k groups times their makespan is at least the sum of all items |
| Groups.SortDesc | java/src/partition/Partition.java:84 | `sort(Comparator.reverseOrder())` gives a non-increasing permutation of the list |
| Groups.SortedPermutationUnique | java/src/partition/Partition.java:84 | two non-increasing lists with the same elements are equal, so the sorted order is unique |
| Groups.DistributePreserves | java/src/partition/Partition.java:52-58 | sending every item to one of the groups loses and adds nothing: the groups together are a permutation of the items |
| Groups.DistributeSelects | java/src/partition/Partition.java:56 | each group is the subsequence of the items sent to it, in input order |
| Groups.LowestMinLoadRunUnique | python/include/partition.py:30-33 | at most one choice sequence sends every item to the lowest-index group of smallest sum |
| JavaHeap.Offer | java/src/partition/Partition.java:48 | `pq.add` keeps the heap order and adds exactly the new entry |
| JavaHeap.Poll | java/src/partition/Partition.java:53 | `pq.poll` returns the head, keeps the heap order and removes exactly one entry |
| JavaHeap.RootIsMinimal | java/src/partition/Partition.java:44 | the head of the queue has the smallest sum of all entries |
| JavaPartition.InitQueue | java/src/partition/Partition.java:43-49 | after set-up there are n empty groups and the queue holds the entry {0, i} for each group i |
| JavaPartition.HeadIsMinLoad | java/src/partition/Partition.java:53-55 | the polled entry names a group whose recorded sum is its real sum and is minimal among all groups |
| JavaPartition.AssignToHead | java/src/partition/Partition.java:53-57 | one pass appends x to a group with minimal sum and keeps exactly one entry per group, each holding that group's real sum |
| JavaPartition.LS | java/src/partition/Partition.java:35-61 | n <= 0 throws; n == 1 returns a copy of arr; otherwise n groups that are a permutation of arr, each in input order, each item sent to a group of smallest current sum |
| JavaPartition.SortDescInPlace | java/src/partition/Partition.java:84 | the array is reordered in place into the descending sort of its old contents |
| JavaPartition.LPT | java/src/partition/Partition.java:76-88 | the same guards as LS, leaving arr unchanged; for n >= 2 arr is sorted in place, descending, and the groups are LS's on the sorted list, a permutation of the old contents |
| JavaPartition.Ceiling | java/src/partition/Partition.java:193 | `ceiling` finds the first bin (by remaining) with remaining >= x, or none |
| JavaPartition.CeilingIsTightest | java/src/partition/Partition.java:193 | the found bin has the smallest remaining of all bins that fit x; none is found exactly when no bin fits |
| JavaPartition.AddBin | java/src/partition/Partition.java:182-186 | `TreeSet.add` keeps the set ordered and adds the bin only when no bin with equal remaining is present; otherwise the set is unchanged |
| JavaPartition.RemoveAt | java/src/partition/Partition.java:200 | `bins.remove(it)` keeps the set ordered and removes exactly that bin |
| JavaPartition.FfdStepRule | java/src/partition/Partition.java:192-203 | with no bin fitting x a new empty group opens, with a bin of remaining capacity - x (a negative x throws); otherwise x joins the group of the tightest fitting bin |
| JavaPartition.FfdKeepsAllButOpeners | java/src/partition/Partition.java:192-203 | the groups hold every item except those that opened a bin, exactly once |
| JavaPartition.FfdJavaKeeps | java/src/partition/Partition.java:181-206 | the returned groups plus the bin-opening items are exactly arr |
| JavaPartition.FfdFromFrozen | java/src/partition/Partition.java:197 | a group whose bin was refused by the set never receives another item |
| JavaPartition.FfdLosesOpeningItem | java/src/partition/Partition.java:196 | FFD([5, 3], 10) returns [[3]]: the 5 that opened the bin is lost |
| JavaPartition.FfdRefusesEqualRemaining | java/src/partition/Partition.java:197 | FFD([6, 6, 4, 4], 10) returns [[4], [], []]: the second bin of remaining 4 is refused, so its group stays empty and a third group opens |
| JavaPartition.FfdRound | java/src/partition/Partition.java:193-202 | one pass of the loop computes exactly `FfdStep` on the groups and bins |
| JavaPartition.FFD | java/src/partition/Partition.java:181-206 | the method returns `FfdJava(arr, capacity)`, whose groups plus the opening items are arr |
| JavaPartition.JavaDivTruncates | java/src/partition/Partition.java:147-148 | Java `/` truncates toward zero |
| JavaPartition.MaxOr0 | java/src/partition/Partition.java:141-145 | `max` starts at 0: the largest item or 0, at least every item |
| JavaPartition.SumAndMax | java/src/partition/Partition.java:141-145 | the first loop computes the sum and `max(0, largest item)` |
| JavaPartition.InitialBounds | java/src/partition/Partition.java:147-148 | the largest item <= lowerBound <= upperBound |
| JavaPartition.MidpointInRange | java/src/partition/Partition.java:153 | the probe capacity lies between the two bounds |
| JavaPartition.ProbesInRange | java/src/partition/Partition.java:152-161 | every probe capacity lies within the initial bounds |
| JavaPartition.LastFitIsProbe | java/src/partition/Partition.java:156-161 | the kept groups are the initial empty list or the groups of a probe with at most n groups |
| JavaPartition.BisectIsLastFit | java/src/partition/Partition.java:152-164 | the loop returns the groups of the last probe with at most n groups |
| JavaPartition.MultifitProperties | java/src/partition/Partition.java:139-164 | MULTIFIT returns the last feasible probe's groups (at most n of them) or [], and every probe capacity is at least the largest item and at most the upper bound |
| JavaPartition.MultifitDoesNotPad | java/src/partition/Partition.java:150-164 | MULTIFIT([10, 1], 3, 7) returns [[], []]: two groups for n == 3, padding none |
| JavaPartition.BisectRound | java/src/partition/Partition.java:152-162 | one round probes the midpoint, which lies within the current [lb, ub]; the interval it goes on with is nested in [lb, ub] and ends at that midpoint; the rest of the search is `Bisect` from there |
| JavaPartition.BisectLoop | java/src/partition/Partition.java:141-164 | for any lowerBound <= upperBound the loop computes `Bisect` over [lowerBound, upperBound]; every round keeps lowerBound <= lb <= ub <= upperBound and probes a capacity within the current [lb, ub] (MULTIFIT establishes largest item <= lowerBound <= upperBound before it) |
| JavaPartition.MULTIFIT | java/src/partition/Partition.java:132-165 | the guards as in LS; for n >= 2 arr is sorted in place, descending (`SortDesc`), and the result is `MultifitResult`, the bisection over it |
| JavaPartition.MULTIFITDefault | java/src/partition/Partition.java:109-111 | the two-argument overload is the three-argument one with k = 7 |
| CppPartition.LowerBound | cpp/include/Partition.cpp:19 | `lower_bound` finds the first bin with remaining >= x, or end |
| CppPartition.InsertBin | cpp/include/Partition.cpp:24 | `multiset::insert` keeps the order and adds exactly the bin, equal ones included |
| CppPartition.EraseAt | cpp/include/Partition.cpp:29 | `erase(it)` keeps the order and removes exactly that bin |
| CppPartition.LowerBoundFits | cpp/include/Partition.cpp:19-25 | end means no group fits x; otherwise the found bin is a group's real remaining, and that group fits x most tightly |
| CppPartition.CppRound | cpp/include/Partition.cpp:18-31 | a new group [x] opens exactly when no group fits; otherwise x joins a tightest-fitting group; one bin per group, each holding capacity minus that group's sum |
| CppPartition.ChoicesBelowCount | cpp/include/Partition.cpp:23-24 | groups are numbered in opening order, so every choice names an opened group |
| CppPartition.JoinKeepsBounds | cpp/include/Partition.cpp:26-27 | a group that fits x stays within capacity after taking it |
| CppPartition.FFD | cpp/include/Partition.cpp:4-35 | the groups are a permutation of arr, non-empty, in opening order, each in input order, at most |arr| of them, every choice best fit, their sums within capacity when every item is; the final multiset holds one bin per group |
| PyPartition.FirstMinIndex | python/include/partition.py:31 | `sums.index(min(sums))` is the first position of the smallest sum |
| PyPartition.IndexOfMin | python/include/partition.py:31 | the two passes min and index find that position |
| PyPartition.GreedyChoices | python/include/partition.py:30-33 | each value goes to the lowest-index group with the smallest current sum |
| PyPartition.GreedyResult | python/include/partition.py:22-35 | k <= 0 raises ValueError, k == 1 returns [data], k >= 2 returns k groups |
| PyPartition.GreedyProperties | python/include/partition.py:27-35 | the k groups are a permutation of data, each in input order, and no other run follows the lowest-index rule |
| PyPartition.LoadsAppend | python/include/partition.py:32-33 | `sums[i] == sum(groups[i])` holds after every step |
| PyPartition.Greedy | python/include/partition.py:3-35 | the loop computes `GreedyResult(data, k)`, without changing data |
| PyPartition.Sorted | python/include/partition.py:62 | `sorted(data, reverse=True)` is a non-increasing permutation of data |
| PyPartition.Lpt | python/include/partition.py:38-63 | the same guards as greedy (k == 1 returns data unsorted), then greedy on a sorted copy |
| PyPartition.LptOrderFree | python/include/partition.py:62-63 | lpt gives the same groups for any order of the same values, and every group is non-increasing |
| LrmGeneric.SpreadIsLargestDifference | java/src/partition/LRMPartition.java:99 | max - min is the largest difference of two elements of the batch |
| LrmGeneric.WidestIndexIsWidest | java/src/partition/LRMPartition.java:95-106 | a normal round picks the lowest-index non-empty batch of strictly largest spread |
| LrmGeneric.WidestBatch | java/src/partition/LRMPartition.java:96-105 | the scan computes that batch, or -1 when all are empty |
| LrmGeneric.ClosestIndexIsClosest | java/src/partition/LRMPartition.java:109-121 | an adjustment round picks the lowest-index non-empty batch whose first element is closest to targetMean |
| LrmGeneric.ClosestBatch | java/src/partition/LRMPartition.java:110-120 | the scan computes that batch, or -1 when all are empty |
| LrmGeneric.PickRule | java/src/partition/LRMPartition.java:92-121 | rounds with iteration % k != 0 use the spread rule, the others (the first included) the closeness rule |
| LrmGeneric.MoveFacts | java/src/partition/LRMPartition.java:124-128 | moving a batch's first element to group i keeps every item and leaves one item fewer in the batches |
| LrmGeneric.PassFacts | java/src/partition/LRMPartition.java:90-129 | one pass of the for loop keeps every item; `added` is set exactly when some batch was non-empty, and the batches shrink when it is |
| LrmGeneric.Rounds | java/src/partition/LRMPartition.java:89-131 | the do-while stops with all batches empty and the groups holding every item |
| LrmGeneric.LrmGenericRun | java/src/partition/LRMPartition.java:75-135 | k groups that are a permutation of the batches' items, with every batch drained |
| LrmGeneric.TakeFor | java/src/partition/LRMPartition.java:92-128 | one iteration of the inner for loop picks by the round's rule and moves the value |
| LrmGeneric.DealPass | java/src/partition/LRMPartition.java:90-130 | the for loop computes `Pass`, one round of the do-while |
| LrmGeneric.LrmGenericBatches | java/src/partition/LRMPartition.java:75-135 | the method computes `LrmGenericRun`, the whole do-while |
| LrmGeneric.RoundRobinSizes | java/src/partition/LRMPartition.java:45-47 | batch j receives n / k items, plus one when j < n % k |
| LrmGeneric.RoundRobinProperties | java/src/partition/LRMPartition.java:36-55 | batch sizes differ by at most one, every batch is non-increasing and holds sorted items i with i % k == j, and the batch sums add up to the input's total |
| LrmGeneric.SumOfBatchSums | java/src/partition/LRMPartition.java:77 | targetMean, the sum of the batch sums, is the sum of all items |
| LrmGeneric.LrmGenericResult | java/src/partition/LRMPartition.java:35-61 | for k >= 1, k groups holding exactly the input; k == 0 with items throws ArithmeticException, k < 0 with items IndexOutOfBoundsException, no items with k <= 0 gives [] |
| LrmGeneric.DealRoundRobin | java/src/partition/LRMPartition.java:45-47 | the loop deals sorted item i to batch i % k |
| LrmGeneric.ComputeMeans | java/src/partition/LRMPartition.java:51-55 | means[j] is the sum of batch j |
| LrmGeneric.LrmGenericList | java/src/partition/LRMPartition.java:35-61 | the method computes `LrmGenericResult(numbers, k)` |
| LrmChunked.Spreads | java/src/partition/LRMPartition.java:198-200 | the spread of each batch, 0 for an empty one |
| LrmChunked.RankBySpreadRanked | java/src/partition/LRMPartition.java:203-206 | the stable sort orders the batch indices by decreasing spread, equal spreads in index order, each index exactly once |
| LrmChunked.TopThreeDistinct | java/src/partition/LRMPartition.java:209-211 | with three or more batches the three chosen batches are distinct |
| LrmChunked.CompensatorIsClosest | java/src/partition/LRMPartition.java:218-226 | the middle element minimises abs(l + r + v - sum), taking the first index on ties; index 0 when no difference is below Integer.MAX_VALUE |
| LrmChunked.Compensator | java/src/partition/LRMPartition.java:218-226 | the loop computes that index |
| LrmChunked.TakePicks | java/src/partition/LRMPartition.java:209-239 | the group is [first of p1, chosen of p3, last of p2] and the batches are written back without them; an empty p1 or p2 throws NoSuchElementException, an empty p3 IndexOutOfBoundsException |
| LrmChunked.StepConserves | java/src/partition/LRMPartition.java:214-239 | the three taken items plus the written-back batches are the old items |
| LrmChunked.LrmStepPicks | java/src/partition/LRMPartition.java:197-239 | one pass takes from the three widest batches in rank order; fewer than three batches throws |
| LrmChunked.LrmRound | java/src/partition/LRMPartition.java:197-239 | the loop body computes `LrmStep`, one triple |
| LrmChunked.LrmRun | java/src/partition/LRMPartition.java:192-243 | k triples whose items, with what is left in the batches, are exactly the batches' items; k <= 0 gives []; fewer than three batches throws |
| LrmChunked.LrmBatches | java/src/partition/LRMPartition.java:192-243 | the while loop computes `LrmRun`, failing exactly where it fails |
| LrmChunked.CeilDiv | java/src/partition/LRMPartition.java:163 | `Math.ceil((double) n / k)` is the least q with q * k >= n |
| LrmChunked.JavaBatchSizeFacts | java/src/partition/LRMPartition.java:163 | the batch size is positive for k >= 1 and n > 0; for k < 0 it is 0 exactly when n < -k |
| LrmChunked.ClampNeverFires | java/src/partition/LRMPartition.java:165-166 | for k >= 1 the clamp to batch k - 1 never changes the index |
| LrmChunked.ChunkIsContiguous | java/src/partition/LRMPartition.java:164-168 | the batches in order are the sorted list, item i in batch i / batchSize |
| LrmChunked.ChunkKeepsItems | java/src/partition/LRMPartition.java:164-168 | the batches hold exactly the sorted items |
| LrmChunked.DealChunks | java/src/partition/LRMPartition.java:162-168 | the loop computes `Chunk(sorted, k)` |
| LrmChunked.ChunkedRun | java/src/partition/LRMPartition.java:171-177 | k triples drawn from the input (at least 3k items); fewer than three groups throws |
| LrmChunked.LrmResult | java/src/partition/LRMPartition.java:151-178 | the error cases of k == 0, k < 0 and k < 3, and for success k triples drawn from the input |
| LrmChunked.LrmList | java/src/partition/LRMPartition.java:151-178 | the method computes `LrmResult(numbers, k)` |
| Text.Trim | java/src/utils/ReadInstances.java:44 | the result is empty exactly for a blank line and otherwise starts and ends with a non-space |
| Text.TrimCutsSpaces | java/src/utils/ReadInstances.java:44 | what trim keeps is the slice s[i..j] with only white space before i and from j on: leading and trailing white space removed and nothing else |
| Text.WordsUnwords | python/include/read_instances.py:60 | splitting on white space gives back the tokens joined by single spaces |
| Text.JavaParseIntShow | java/src/utils/ReadInstances.java:64-67 | `Integer.parseInt` reads back every printed int, and throws NumberFormatException on every printed integer outside the int range |
| Text.JavaParseInt | java/src/utils/ReadInstances.java:81 | a parsed value is in int range, and the token is non-empty with only digits after its first character |
| Text.PyParseIntShow | python/include/read_instances.py:62-65 | `int()` reads back every printed integer of at most 4300 digits, and raises ValueError on every longer one |
| Text.PyParseInt | python/include/read_instances.py:71 | a parsed token is non-empty with only digits and underscores after its first character |
| Text.Contains | cpp/include/ReadInstances.cpp:28 | `find` succeeds exactly when the pattern occurs at some position |
| Text.CppExtractShow | cpp/include/ReadInstances.cpp:44 | `>>` reads back a printed int and stops at the following non-digit |
| Text.CppExtractNumerals | cpp/include/ReadInstances.cpp:59-64 | the extraction loop reads back every int of a printed value line |
| Text.NatToDigitsValue | cpp/src/generate-instances.cpp:243-246 | decimal printing of a natural number reads back as that number |
| JavaReader.StepKeepsInv | java/src/utils/ReadInstances.java:43-94 | a pending instance with M > 0 never already has M values, and every saved instance has M values |
| JavaReader.SavesNeverFire | java/src/utils/ReadInstances.java:48-100 | a header line only starts a fresh instance, and the result is what the loop emitted: neither save guarded by M > 0 && size == M (on a header, at end of file) ever fires |
| JavaReader.ReadComplete | java/src/utils/ReadInstances.java:89-100 | every returned instance has exactly M values |
| JavaReader.RunPrefix | java/src/utils/ReadInstances.java:50 | instances come back in file order: reading more lines only appends |
| JavaReader.BlankLineIgnored | java/src/utils/ReadInstances.java:44-45 | a line that is empty after trim changes nothing, wherever it occurs |
| JavaReader.NoCurrentStep | java/src/utils/ReadInstances.java:57 | with no instance being read, a line that is not a header changes nothing |
| JavaReader.NoCurrentIgnored | java/src/utils/ReadInstances.java:57 | with no instance being read, a run of lines none of which is a header changes nothing |
| JavaReader.LeadingLinesIgnored | java/src/utils/ReadInstances.java:57 | lines before the first `#` line are ignored |
| JavaReader.ClosedLinesIgnored | java/src/utils/ReadInstances.java:57-91 | after a value line closes an instance (line 91 sets current to null), the lines up to the next header are ignored |
| JavaReader.ParamsParsed | java/src/utils/ReadInstances.java:60-73 | a printed parameter line sets M, N, B and optimalSum and starts the values |
| JavaReader.ParsedNumerals | java/src/utils/ReadInstances.java:77-86 | the tokens of a printed value line parse back to the values |
| JavaReader.ValuesStep | java/src/utils/ReadInstances.java:76-93 | a value line that brings the count to M emits the instance and clears current |
| JavaReader.ReadRendered | java/src/utils/ReadInstances.java:35-105 | reading a generated file of instances whose numbers all fit a 32-bit int, each with M > 0 values, gives back its instances, in order |
| JavaReader.ParamsBeyondInt | java/src/utils/ReadInstances.java:60-72 | a parameter line whose optimalSum does not fit an int makes `parseInt` throw, and current becomes null |
| JavaReader.ValuesSkipped | java/src/utils/ReadInstances.java:57 | with current null, a line of numerals changes nothing |
| JavaReader.BlockBeyondIntDropped | java/src/utils/ReadInstances.java:47-91 | a generated block whose optimalSum does not fit an int leaves the loop's variables as they were |
| JavaReader.ReadSkipsBeyondInt | java/src/utils/ReadInstances.java:35-105 | such a block drops out of the result: the file reads as if the block were absent |
| JavaReader.AddValues | java/src/utils/ReadInstances.java:77-86 | the token loop appends the integer tokens, skips the others and changes no other field |
| JavaReader.HandleLine | java/src/utils/ReadInstances.java:44-94 | one pass of the while loop mirrors `JavaReader.Step` on the objects |
| JavaReader.ReadLines | java/src/utils/ReadInstances.java:36-95 | after the while loop, the objects and variables mirror `RunFrom(Start, lines)`, the state `JavaReader.Step` reaches over all lines |
| JavaReader.ParseInstances | java/src/utils/ReadInstances.java:35-105 | the method returns objects holding exactly `JavaReader.Read(lines)` |
| CppReader.Flush | cpp/include/ReadInstances.cpp:75-76 | at end of file the pending instance is kept only if values were being read and the count equals M |
| CppReader.ReadPositive | cpp/include/ReadInstances.cpp:42-79 | every returned instance has M > 0; under the corrected rule it also has exactly M values |
| CppReader.EmptyLineIgnored | cpp/include/ReadInstances.cpp:24-25 | an empty line changes nothing (no trimming) |
| CppReader.HeaderStep | cpp/include/ReadInstances.cpp:28-38 | a header pushes the pending instance if values were read and the count equals M, then resets everything |
| CppReader.NoHashNoHeader | cpp/include/ReadInstances.cpp:42 | a line without `#` is never a header, so it reaches the parameter branch |
| CppReader.ParamsStep | cpp/include/ReadInstances.cpp:42-55 | a printed parameter line sets the four numbers and starts reading values |
| CppReader.StepKeepsInv | cpp/include/ReadInstances.cpp:44-50 | M <= 0 is rejected: values are read only for M > 0, and saved instances have M > 0 |
| CppReader.ValuesStep | cpp/include/ReadInstances.cpp:58-79 | one line holding all M values of an instance, followed by what ends the file or the instance (both push the pending instance), gives that instance, under either rule |
| CppReader.ReadRendered | cpp/include/ReadInstances.cpp:22-79 | reading a generated file of instances whose numbers all fit a 32-bit int, each with M > 0 values, gives back its instances, in order, under either rule |
| CppReader.CountAgainstN | cpp/include/ReadInstances.cpp:67 | with M = 4, N = 2 and the values on two lines, the code as written returns the instance with only its first two values; the corrected rule returns all four |
| CppReader.SplitAsWritten | cpp/include/ReadInstances.cpp:67-70 | whenever the first value line holds N != M values, the instance is pushed cut to those |
| CppReader.SplitIntended | cpp/include/ReadInstances.cpp:58-79 | under the corrected rule values split over two lines come back whole |
| CppReader.ReadValues | cpp/include/ReadInstances.cpp:59-64 | the extraction loop appends every int read before the first failure and counts them |
| CppReader.ReadInstances | cpp/include/ReadInstances.cpp:22-79 | the getline loop computes `CppReader.Read(AsWritten, lines)`, the read of the code as written |
| PyReader.MapAllSome | python/include/read_instances.py:71 | `list(map(int, tokens))` holds one number per token, read by int() |
| PyReader.MapAllNone | python/include/read_instances.py:71 | ValueError comes exactly when some token is not an integer |
| PyReader.ReadNonEmpty | python/include/read_instances.py:51-52 | every returned instance has a value, with no check that there are M of them |
| PyReader.RaisedStays | python/include/read_instances.py:62-72 | an exception from int() or from None ends the read, whatever lines follow |
| PyReader.BlankLineIgnored | python/include/read_instances.py:44-46 | a line that is empty after strip changes nothing |
| PyReader.ParamsBeforeHeader | python/include/read_instances.py:59-65 | a parameter line before any header raises AttributeError, or ValueError when its first token is not an integer |
| PyReader.ParsedNumerals | python/include/read_instances.py:71 | the tokens of a printed value line parse back to the values when each has at most 4300 digits, and raise ValueError otherwise |
| PyReader.HeaderStep | python/include/read_instances.py:49-56 | a header appends current if it has values and starts a fresh instance |
| PyReader.ParamsStep | python/include/read_instances.py:59-67 | a printed parameter line sets M, N, B and optimal_sum and switches to value mode |
| PyReader.ValuesStep | python/include/read_instances.py:70-72 | a value line extends current.values |
| PyReader.ValuesBeyondLimit | python/include/read_instances.py:70-71 | a value line holding a number of more than 4300 digits raises ValueError |
| PyReader.ReadRendered | python/include/read_instances.py:38-79 | reading a generated file gives back its instances whenever each has a value and each of its numbers has at most 4300 digits, whatever its M |
| PyReader.WritableWithinLimit | python/include/read_instances.py:62-65 | an instance whose numbers all fit a 32-bit int has every number within the digit limit of `int()` |
| PyReader.HandleLine | python/include/read_instances.py:44-72 | one pass of the for loop mirrors `PyReader.Step`, or raises the same exception |
| PyReader.ReadInstances | python/include/read_instances.py:38-79 | the method returns objects holding exactly `PyReader.Read(lines)`, or raises exactly its exception |

## Left out

- Java `int` overflow is not modelled: the `2 * sum` at java/src/partition/Partition.java:148, the sums in `LS`, and the comparator `spreads.get(j) - spreads.get(i)` of `lrm`. Integers are unbounded. `Integer.parseInt` and C++ `>> int` keep their int range.
- C++ `int valuesCount` overflow is not modelled.
- `partition::ValueType` is declared in a header that is not part of this model. For `partition::FFD` it is modelled as an unbounded signed integer.
- The round trips (`JavaReader.ReadRendered`, `CppReader.ReadRendered`, `PyReader.ReadRendered`) are stated for instances whose numbers all fit a 32-bit int. The C++ generator also writes `B = 32` instances (cpp/src/generate-instances.cpp:203). There, `balanced_strategy` computes a group sum of at least 2^31 (lines 47-55), and `random_strategy` draws values up to 2^32 - 1 (lines 90-96), before casting them to `ValueType`. If `ValueType` is wider than int, such a file holds numbers outside the int range, and the readers do not give the instance back:
  - the Java reader's `parseInt` throws on the parameter line and line 71 drops the instance (`JavaReader.ReadSkipsBeyondInt`);
  - the C++ reader's extraction at cpp/include/ReadInstances.cpp:44 fails, so the parameter line leaves the state as it was and the next line is tried as a parameter line again (modelled by `CppReader.Step`; no lemma follows such a file further).
- CppReader.ReadValues: `iss >> value` at cpp/include/ReadInstances.cpp:61 is modelled as extraction into an `int`, which matches `std::vector<int> values` (cpp/include/ReadInstances.hpp:19). A token outside the 32-bit range therefore stops the line's extraction. If `ValueType` were wider, such a token would be read and then narrowed when stored instead, and that behaviour is not modelled.
- Floating point is replaced by integers:
  - `Math.ceil((double) n / k)` is integer ceiling division, with the truncating cast kept for negative k.
  - `Double.MAX_VALUE` and the `double` difference in lrmGeneric compare integer differences.
- File opening, existence checks and console output are left out. Each reader receives the file's lines without their terminators:
  - java/src/utils/ReadInstances.java:21-33 and 103;
  - cpp/include/ReadInstances.cpp:9-15, 46, 52 and 78;
  - python/include/read_instances.py:34-36 and 78.
- Reading from a stream is not modelled. A `\r` left by a CRLF file is treated like any other character.
- Text.PyParseInt: the digit limit is CPython's default of 4300 digits, counted without sign and underscores. It applies from Python 3.11 and in the 3.10.7, 3.9.14, 3.8.14 and 3.7.14 releases. Not modelled: a limit changed through `sys.set_int_max_str_digits`, `PYTHONINTMAXSTRDIGITS` or `-X int_max_str_digits`, and older interpreters, which have no limit.
- Unicode digits are not accepted by any parser. `Integer.parseInt` and Python `int()` also accept non-ASCII decimal digits; only ASCII digits are modelled.
- CppReader.ParamLine: on a malformed parameter line, `iss >> current.M >> ...` may have assigned some fields before failing. The model leaves the state unchanged. The partial values cannot be observed: the fields are overwritten by the next parameter line, and reading values needs one that succeeds.
- CppReader.Start: the C++ `InstanceData current;` leaves its numeric fields indeterminate until a header arrives. The model starts from zeros. Those fields cannot be observed either, because values are read only after a parameter line.
- JavaPartition.LS: its contract says each item goes to *a* group of smallest sum. It does not state which group wins a tie. The tie-break falls out of the modelled heap layout (`JavaHeap`), which the method follows step by step.
- JavaPartition.BisectLoop: each probe evaluates `FfdJava` through `FfdOn`. `FfdJava` is the function `JavaPartition.FFD` is proved to compute; the loop does not call that method itself.
- JavaReader: the `values` list of a saved `InstanceData` could still be changed by a caller. The model returns values.
- Not modelled at all, because no listed operation depends on them:
  - the CGA, genetic algorithm and simulated annealing;
  - the C++ `LS`/`LPT`/`MULTIFIT` templates, whose definitions are not part of this model;
  - the experiment drivers, apart from `maxGroupSum` (`Groups.MaxGroupSum`);
  - the instance generators, apart from the file layout their output has (`InstanceFile.Render`);
  - `python/main.py`;
  - plotting and metrics.

## Findings

| source | as written | input that shows it | evidently intended | confidence | as-written member | corrected member |
|---|---|---|---|---|---|---|
| java/src/partition/Partition.java:196 | `new ArrayList<>(x)` makes an empty list of initial capacity x, so the item that opens a bin is never stored (and a negative x throws) | FFD([5, 3], 10) returns [[3]] | `push_back({x})`: a new group holding x, as in C++ FFD | high, not executed | JavaPartition.FfdLosesOpeningItem | CppPartition.FFD |
| java/src/partition/Partition.java:182-186 | `compareTo` compares only `remaining`, so the `TreeSet` drops a bin whose remaining equals another's, and that group is never reused | FFD([6, 6, 4, 4], 10) returns [[4], [], []] | a multiset of bins, as in C++ FFD | high, not executed | JavaPartition.FfdRefusesEqualRemaining | CppPartition.FFD |
| cpp/include/ReadInstances.cpp:67 | the count of values is compared with N (the group count), not with M (the number of values) | lines "# Instance 1", "4 2 0 10", "1 2", "3 4" give one instance with values [1, 2] | push the instance once M values are read | high, not executed | CppReader.CountAgainstN | CppReader.SplitIntended |
