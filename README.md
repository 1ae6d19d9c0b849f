# a-h/ml in Dafny

A model of the deterministic core of the `a-h/ml` Go toolkit, with proofs about it.

- **Radial-basis-function units.** A `Node` keeps input weights, a centroid, a distance function, an RBF centre and width, and output weights. A `Bias` has constant outputs. A `Network` sums its units' outputs element by element.
- **Training driver.** `Complete` repeatedly asks a search algorithm (`RandomGreedy` or `HillClimbing`) for the next parameter vector ("memory"). It scores candidates with the trainee's mean distance over the training data, loads the vector into the trainee, and polls a list of stoppers.
- **Clustering.**
  - Grouping vectors by an assignment.
  - A map-backed `Cluster` keeping its members' mean.
  - Centroid accumulators.
  - k-means with random seeding and nearest-centroid reassignment.
- **Distance metrics.** Five metrics sharing one input validation.
- **Small pieces.** Set-counting conditional probability (`bayes`), vector equality, and the secant line of `calculus`.

How the model represents Go:
- `float64` is `real`.
- Slices are `seq`. A nil slice, where it matters, is `None` of an `Option`. For centroid rows it is an empty row.
- Go's `error` results are `Option<Error>` or `Result<T, Error>` over one `Errors.Error` datatype. The datatype has one constructor per error the toolkit creates, and the values in each message become the constructor's arguments.
- Injected collaborators become parameters:
  - a distance function (`Distance.Function`, returning a `Result`);
  - the RBF (`RbfNode.Rbf`);
  - `math.Sqrt` (a `real -> real` argument; lemmas that need it require `IsSqrt`);
  - the random source (`RandomSource.Source`, a stream of unit draws given from outside).
- Objects whose methods update their fields are classes:
  - `RbfNode.Node`, `RandomGreedySearch.RandomGreedy`, `HillClimbingSearch.HillClimbing` and `ClusterSet.Cluster`;
  - the slice of centroid rows KMeans passes by pointer (`ClusterCentroids.CentroidSlice`);
  - a stopper's channel and context (`Training.Channel`, `Training.Context`).
- Each loop of the source that updates state (accumulators, fields, rows, the random source) is a method with a loop. It is proved equal to a recursive specification function, and the properties are lemmas about that function.
- The read-only scans that only compare two slices and return early are recursive functions: `ArrayEqual.EqFloat64`, `Vectors.Eq`, `Assignment.GroupEq`/`GroupsEq` and `Bayes.Matches`.

Behaviour of the code that the model follows even where it may surprise:
- `GetMemorySize` is `len(InputWeights) + 2 + len(OutputWeights)`: both Center and Width are stored.
- `SetMemory` checks no length. The model asks only what indexing needs: at least `len(InputWeights) + 2` values.
- `NewNetwork` with mismatched output counts still returns the network. It sets the error of the *last* mismatch.
- `Complete` on an empty training set divides by zero and gives NaN rather than a configuration error. The model requires a non-empty set.
- Stoppers are polled in order and the first that fires ends the poll.
- `HillClimbing.Next` stores the final evaluation's error even when that evaluation fails.
- `Centroids` divides every cluster's sum by the total number of vectors, not by the cluster's size.
- The `Algorithm` interface in training/interfaces.go declares `Next(e float64) []float64`. The model follows the implementations, `Next(ev Evaluator) ([]float64, error)`.
- The Go evaluator takes no argument and reads the memory through its closure. In the model the evaluator is a function of the vector the algorithm currently holds, which is what such a closure over the shared slice sees. `Complete`'s evaluator ignores that argument and scores the trainee as it stands when `Next` is called.

## Model

| member | source | states |
|---|---|---|
| ArrayEqual.EqFloat64 | array/equal.go:4-16 | true iff same length and equal at every position |
| ArrayEqual.EqualFrom | array/equal.go:9-13 | the scan from i is true iff no later position differs |
| ArrayEqual.EqFloat64IsEquality | array/equal.go:4-16 | EqFloat64 is sequence equality, hence symmetric and true of two empty slices |
| Vectors.Eq | clustering/vector.go:7-19 | true iff same length and equal at every position, i.e. iff the vectors are equal |
| Vectors.FirstDifference | clustering/vector.go:12-16 | the early-return index: all equal before it, a difference at it unless it is the length |
| Vectors.EqProperties | clustering/vector.go:7-19 | Eq is symmetric, true of two empty vectors, false on different lengths, and agrees with EqFloat64 |
| VectorOps.Zeros | clustering/centroid.go:13 | n components, all 0 |
| VectorOps.Plus | clustering/centroid.go:17-19 | component j is row[j] + v[j] (0 past the end of v), length kept |
| VectorOps.Divided | clustering/centroid.go:23-25 | component j is row[j] / n, length kept |
| VectorOps.SumRowsIsColumnSum | clustering/centroid.go:16-20 | folding rows into zeros gives each component's column sum |
| VectorOps.AddInto | clustering/centroid.go:17-19 | the add-into loop computes Plus |
| VectorOps.Reset | clustering/centroid.go:56-58 | the reset loop leaves a zero vector of the same length |
| VectorOps.DivideBy | clustering/centroid.go:23-25 | the divide loop computes Divided |
| Distance.ValidateInputs | distance/errors.go:17-28 | NilVector iff either is nil; else MismatchedVectorLengths iff lengths differ; else ZeroLengthVector iff both empty; no error iff both non-nil, same non-zero length |
| Distance.ValidationPrecedence | distance/errors_test.go:13-35 | nil beats empty, mismatch beats zero length, two empties give ZeroLengthVector |
| Distance.Abs | distance/manhattan.go:13 | non-negative and equal to x or -x |
| Distance.SumAbsDiff | distance/manhattan.go:12-14 | the sum of absolute differences is non-negative |
| Distance.MaxAbsDiff | distance/chebyshev.go:12-16 | at least every coordinate difference, equal to one of them, 0 for empty vectors |
| Distance.SumSquares | distance/sumofsquares.go:8-11 | the sum of squared differences is non-negative |
| Distance.Offset | distance/euclidean_test.go:13-36 | every component shifted by c |
| Distance.Manhattan | distance/manhattan.go:8-16 | the validation error unchanged, otherwise the sum of absolute differences |
| Distance.Chebyshev | distance/chebyshev.go:8-18 | the validation error unchanged, otherwise the largest absolute difference |
| Distance.SumOfSquares | distance/sumofsquares.go:4-13 | the validation error unchanged, otherwise the sum of squared differences |
| Distance.SquareSum | distance/sumofsquares.go:8-11 | the shared accumulator loop computes SumSquares |
| Distance.MeanSquare | distance/meansquare.go:4-15 | the validation error unchanged, otherwise SumSquares / n |
| Distance.Euclidean | distance/euclidean.go:8-16 | the validation error unchanged, otherwise sqrt of SumSquares |
| Distance.RootMeanSquare | distance/rootmeansquare.go:8-19 | the validation error unchanged, otherwise sqrt of SumSquares / n |
| Distance.SumAbsDiffSymmetric | distance/manhattan_test.go:13-23 | Manhattan is symmetric |
| Distance.SumAbsDiffZeroIffEqual | distance/manhattan_test.go:25-29 | Manhattan is 0 iff the vectors are equal |
| Distance.MaxAbsDiffSymmetric | distance/chebyshev.go:12-17 | Chebyshev is symmetric |
| Distance.SumSquaresZeroIffEqual | distance/sumofsquares_test.go:13-18 | SumOfSquares is 0 iff the vectors are equal |
| Distance.SumSquaresOfShift | distance/sumofsquares_test.go:19-29 | a shift of c on n coordinates gives n·c² |
| Distance.SumSquaresOffsetInvariant | distance/euclidean_test.go:13-36 | adding one offset to both vectors keeps the sum of squares |
| Distance.MeanSquareOfShift | distance/meansquare_test.go:21-38 | a shift of c gives a mean square of c² |
| Distance.SqrtOfSquare | distance/rootmeansquare_test.go:22-39 | sqrt(c²) = \|c\| for a square root |
| Distance.SquareZeroIffZero | distance/sumofsquares_test.go:13-18 | x² = 0 iff x = 0 |
| Distance.EuclideanOffsetInvariant | distance/euclidean_test.go:13-36 | Euclidean is unchanged by a common offset |
| Distance.SqrtDistancesOfEqualVectors | distance/euclidean_test.go:37-41 | Euclidean and RootMeanSquare of equal vectors are 0 |
| Distance.RootMeanSquareOfShift | distance/rootmeansquare_test.go:22-39 | a shift of c gives a root mean square of \|c\| |
| Bayes.NewDatum | bayes/calculate.go:7-16 | the value kept; the category set is exactly the listed categories |
| Bayes.Matches | bayes/calculate.go:47-54 | true iff the datum has every listed category; true for none |
| Bayes.Filtered | bayes/calculate.go:37-45 | never longer than the data |
| Bayes.Filter | bayes/calculate.go:37-45 | the append loop computes Filtered |
| Bayes.FilteredAppend | bayes/calculate.go:37-45 | filtering distributes over concatenation, so the original order is kept |
| Bayes.FilteredExactly | bayes/calculate.go:37-45 | x is kept iff x is in the data and matches |
| Bayes.FilteredTwice | bayes/calculate.go:29-33 | filtering the given-filtered data by one category equals filtering by given + category |
| Bayes.Probability | bayes/calculate.go:28-35 | in [0, 1]; 0 when nothing matches the given categories; otherwise count(given + is) / count(given) |
| Bayes.Fraction | bayes/calculate.go:34 | part / whole lies in [0, 1] |
| Bayes.FilteredByNothing | bayes/calculate.go:47-54 | filtering by no categories keeps all data |
| Bayes.ProbabilityWithoutGiven | bayes/calculate_test.go:18-27 | with no given categories, the fraction of all data in the category (0 with no data) |
| Calculus.TangentSlope | calculus/tangentslope.go:4-21 | slope·d = f(x) − f(x−d), and the line passes through (x−d, f(x−d)) and (x, f(x)) |
| Calculus.Line.Y | calculus/tangentslope.go:32-34 | the point (x, y) lies on the line: y − B = M·x |
| Calculus.Line.X | calculus/tangentslope.go:37-42 | for a non-zero slope, the x at which the line reaches y: M·x + B = y |
| Calculus.XInvertsY | calculus/tangentslope.go:32-42 | with a non-zero slope, X(Y(x)) = x and Y(X(y)) = y |
| RbfNode.Flatten | rbf/node.go:84-91 | length \|InputWeights\|+2+\|OutputWeights\|: the input weights, then Center, Width, then the output weights |
| RbfNode.Unflatten | rbf/node.go:94-104 | k input weights and the remainder after two values as output weights |
| RbfNode.UnflattenFlatten | rbf/node_test.go:58-64 | restoring a node's memory gives back the same parameters |
| RbfNode.FlattenUnflatten | rbf/node.go:96-103 | any vector of at least k+2 values is reproduced by GetMemory after SetMemory |
| RbfNode.Scaled | rbf/node.go:51-54 | input[i]·weights[i] at each position |
| RbfNode.Weighted | rbf/node.go:64-68 | activation·weights[i] at each position |
| RbfNode.Output | rbf/node.go:43-70 | an input-length mismatch error naming both lengths; the distance error unchanged; otherwise OutputWeights scaled by the RBF of the distance from the scaled input to the centroid |
| RbfNode.Node.constructor | rbf/node.go:24-32 | a node holding exactly the given fields |
| RbfNode.Node.OutputCount | rbf/node.go:73-75 | the number of output weights |
| RbfNode.Node.GetMemorySize | rbf/node.go:78-81 | \|InputWeights\| + 2 + OutputCount, the length of GetMemory |
| RbfNode.Node.GetMemory | rbf/node.go:84-91 | the flattened parameters |
| RbfNode.Node.SetMemory | rbf/node.go:94-104 | parameters restored by offset, the input-weight count kept, Centroid and Distance untouched, GetMemory() = m afterwards, and setting the node's own memory changes nothing |
| RbfNode.Node.Calculate | rbf/node.go:43-70 | returns Output of the node's fields; on success OutputCount values |
| RbfNode.MemoryRoundTripKeepsOutput | rbf/node_test.go:58-64 | a memory round trip does not change what the node computes |
| RbfBias.Bias.OutputCount | rbf/biasnode.go:22-25 | the number of constant outputs |
| RbfBias.Bias.Calculate | rbf/biasnode.go:17-20 | always succeeds with the constant outputs, OutputCount of them |
| RbfBias.CalculateIgnoresInput | rbf/biasnode.go:18-24 | always succeeds, the same for every input (nil included), with OutputCount values |
| RbfBias.NewBias | rbf/biasnode.go:4-10 | count outputs, all 1.0 |
| RbfNetwork.Unit.OutputCount | rbf/network.go:139-141 | a node's number of output weights, a bias's number of outputs |
| RbfNetwork.Unit.Output | rbf/network.go:170-176 | a bias always succeeds; a node given an input of the wrong length fails with both lengths; a success has OutputCount values |
| RbfNetwork.OutputCounts | rbf/network.go:139-145 | each unit's OutputCount, in order |
| RbfNetwork.CountMismatch | rbf/network.go:139-145 | no error iff every count equals the first; otherwise the mismatch of the last differing unit, with its index relative to the second unit |
| RbfNetwork.NewNetwork | rbf/network.go:134-148 | no units: an error and no network; otherwise the units in order together with CountMismatch's error |
| RbfNetwork.UnitResults | rbf/network.go:170-176 | one result per unit |
| RbfNetwork.UnitResultsAt | rbf/network.go:170-176 | result k is unit k's output |
| RbfNetwork.Combine | rbf/network.go:168-192 | a success has the first result's length |
| RbfNetwork.Step | rbf/network.go:182-191 | a success keeps the accumulated length |
| RbfNetwork.CombinePrefix | rbf/network.go:170-192 | one more unit is one more Step |
| RbfNetwork.CalculateUnit | rbf/network.go:173 | a unit's Calculate is its Output |
| RbfNetwork.Calculate | rbf/network.go:162-194 | an error for no units, otherwise the accumulation over the units' results |
| RbfNetwork.CalculateInto | rbf/network.go:172-191 | one pass of the loop over unit i: the unit's own result, then Absorb's outcome |
| RbfNetwork.Absorb | rbf/network.go:172-191 | one loop pass extends the accumulation or ends with the whole network's error |
| RbfNetwork.StopsAt | rbf/network.go:174-187 | the first failing or wrongly sized result is the network's error |
| RbfNetwork.FailureStops | rbf/network.go:174-176 | once the accumulation has failed, later units change nothing |
| RbfNetwork.CombineUniform | rbf/network.go:162-194 | success iff every unit succeeds with the first unit's length, and then the element-wise sum of all outputs |
| RbfNetwork.CombineIsColumnSum | rbf/network.go:188-191 | output j is the sum over the units of their output j |
| RbfNetwork.FirstFault | rbf/network.go:170-187 | the first unit that fails or differs in length decides the error |
| RbfNetwork.OutputHasOutputCount | rbf/node.go:65-68 | a unit's successful output has OutputCount values |
| RbfNetwork.AcceptedNetworkSums | rbf/network.go:162-194 | for units NewNetwork accepts that all succeed, the output has the first unit's OutputCount values, each the column sum |
| RandomSource.Source.constructor | random/random.go:10-14 | a source with the given draws, none taken yet |
| RandomSource.Source.Float64 | random/random.go:16-18 | draw k scaled to (max−min)·u + min, one draw taken |
| RandomSource.Source.Float64Vector | random/random.go:20-26 | size consecutive scaled draws |
| RandomSource.Source.Intn | clustering/kmeans.go:30 | an integer below n from one draw |
| RandomSource.IntOf | clustering/kmeans.go:40 | the integer a unit draw selects is below n |
| RandomSource.Draws | random/random.go:20-26 | size values, value i the scaled draw start+i |
| RandomSource.ScaleInRange | random/random_test.go:23-29 | a scaled unit draw lies in [min, max] |
| RandomSource.DrawsInRange | random/random_test.go:23-29 | every drawn component lies in [min, max] |
| Training.Accumulate | training/complete.go:34-44 | an error is a training-data error or a distance error, the two ways the loop fails |
| Training.Evaluate | training/complete.go:33-47 | Accumulate's error, otherwise the accumulated sum divided by the number of data |
| Training.Fires | training/complete.go:63-117 | a threshold stopper fires as its threshold says, a channel stopper iff a value is pending, a context stopper iff the context is cancelled |
| Training.AccumulateSucceeds | training/complete.go:33-47 | the evaluation succeeds iff every datum can be calculated and measured, and is then the sum of the distances |
| Training.AccumulateFirstError | training/complete.go:34-42 | the first unmeasurable datum decides the error, wrapped by the step that failed |
| Training.EvaluateTrainee | training/complete.go:33-47 | the loop computes the mean distance, or the first error with the sum so far |
| Training.AccumulateStep | training/complete.go:34-44 | one more datum is one more step of the accumulation |
| Training.ErrorPersists | training/complete.go:36-41 | after an error, the rest of the data changes nothing |
| Training.Channel.constructor | training/complete.go:78 | a new channel is empty |
| Training.Channel.Send | training/complete_test.go:195-206 | sending fills the channel |
| Training.Context.constructor | training/complete.go:63-72 | a new context is not cancelled |
| Training.Context.Cancel | training/complete.go:63-72 | cancelling sets the flag |
| Training.StopAfterXIterations | training/complete.go:90-97 | fires iff iterations ≥ x |
| Training.StopWhenErrorIsLessThan | training/complete.go:100-107 | fires iff the error is strictly below e |
| Training.StopWhenErrorIsGreaterThan | training/complete.go:110-117 | fires iff the error is strictly above e |
| Training.StopWhenChannelReceives | training/complete.go:77-87 | a fresh empty channel and the stopper polling it |
| Training.StopWhenContextCancelled | training/complete.go:63-72 | a stopper that polls only the context |
| Training.FirstFiring | training/complete.go:49-56 | the first stopper that fires, none before it |
| Training.ShouldStop | training/complete.go:49-56 | true iff some stopper fires; a firing channel stopper consumes its value; nothing else changes |
| TrainingLoop.NextOf | training/complete.go:19 | the returned vector is the one the algorithm now holds, of the same length; a success adds BestError and that vector to the algorithm's histories, a failure adds nothing |
| TrainingLoop.FirstFiringOfThresholds | training/complete.go:49-56 | for threshold stoppers, shouldStop is true iff one fires |
| TrainingLoop.Complete | training/complete.go:14-31 | counts passes; a Next error returns the passes so far with the iteration-wrapped error; errors and memories are exactly what this session's Next calls added to the algorithm's histories, one per pass; the trainee holds the last vector loaded, which after a normal end is the algorithm's current vector; a normal end's last error is the BestError polled; with threshold stoppers, no earlier pass fired and the last fired exactly when it ended without error |
| TrainingLoop.Session | training/complete.go:14-31 | the loop of Complete: the same outcome, with the histories and the trainee tied together pass by pass |
| TrainingLoop.Pass | training/complete.go:16-28 | one iteration: on success the histories grow by the best error and the loaded vector, the trainee holds that vector, and stop is whether a threshold stopper fires at the new count; on failure the histories are unchanged |
| TrainingLoop.NoneFiredExtend | training/complete.go:26-28 | adding one more error keeps the earlier passes' record |
| TrainingLoop.NoneFiredBefore | training/complete.go:26-28 | no stopper fired at any pass before n |
| TrainingLoop.Train | training/complete.go:16-23 | Next, then SetMemory with the vector only on success, so the trainee's parameters are the vector unflattened and GetMemory is the vector; on failure the trainee and the histories are unchanged; centroid and distance untouched |
| TrainingLoop.Poll | training/complete.go:26-28 | for threshold stoppers, stops iff one fires |
| TrainingLoop.StoppersPollOnlySignals | training/complete.go:58-87 | stoppers share no state with the trainee or the algorithm |
| TrainingLoop.AfterIterationsFiresAtX | training/complete.go:90-97 | StopAfterXIterations(x) fires at pass x |
| TrainingLoop.StopsAtEarlierOf | training/complete.go:90-107 | with StopAfterXIterations(x) and StopWhenErrorIsLessThan(limit), the session ends by pass x, every earlier error is at least limit, and ending before x means the last error is below limit |
| TrainingLoop.AfterIterationsRunsExactly | training/complete_test.go:27-49 | with StopAfterXIterations(x), a session that stops has run exactly x iterations |
| RandomGreedySearch.RandomGreedy.constructor | training/randomgreedy.go:11-20 | current = memory, no best memory, error MaxFloat64, range [-10, 10], empty histories |
| RandomGreedySearch.RandomGreedy.Next | training/randomgreedy.go:34-45 | one evaluation; on error nothing changes; otherwise a strictly better score makes the old vector best, the error never rises, and the new current vector is fresh draws of the same length; a success adds the new best error and the new vector to the histories |
| RandomGreedySearch.RandomGreedy.Record | training/randomgreedy.go:36-42 | one score recorded: best and error follow the strict-less rule, as Replay of the scores |
| RandomGreedySearch.RandomGreedy.Resample | training/randomgreedy.go:43-44 | the new current vector is the next draws of the same length, recorded as a proposal |
| RandomGreedySearch.ReplayStep | training/randomgreedy.go:39-42 | one more score replaces the best exactly when it is strictly lower |
| RandomGreedySearch.ResampledInRange | training/randomgreedy_test.go:21-30 | the resampled vector has the same length and lies in [Min, Max] |
| RandomGreedySearch.Replay | training/randomgreedy.go:39-42 | the best error is the least score below MaxFloat64, the best memory a vector that scored it, nil iff nothing scored below MaxFloat64 |
| HillClimbingSearch.PickFrom | training/hillclimbing.go:51-61 | the first evaluator error aborts with that error; a completed pick had no error |
| HillClimbingSearch.PickFromKeepsBest | training/hillclimbing.go:56-59 | the strict-less update keeps the first trial of least error |
| HillClimbingSearch.PickIsFirstMinimum | training/hillclimbing.go:47-62 | the chosen move is the first with the lowest error; move 0 when none beats MaxFloat64 |
| HillClimbingSearch.TrialsOf | training/hillclimbing.go:50-51 | trial k moves component i by velocity·movements[k] |
| HillClimbingSearch.ScoresOf | training/hillclimbing.go:52 | the evaluator's score of each trial |
| HillClimbingSearch.PickOf | training/hillclimbing.go:47-62 | an abort or chosen index lies among the moves |
| HillClimbingSearch.Dimension | training/hillclimbing.go:47-62 | only component i changes; no failure iff the pick completed |
| HillClimbingSearch.DimensionAborts | training/hillclimbing.go:52-55 | a failing trial leaves its value in place and ends the dimension |
| HillClimbingSearch.DimensionCommits | training/hillclimbing.go:62 | a completed dimension commits the best move |
| HillClimbingSearch.Sweep | training/hillclimbing.go:45-63 | the sweep keeps the length and leaves earlier components alone |
| HillClimbingSearch.SweepTrials | training/hillclimbing.go:45-63 | \|movements\| trials for each dimension from i on |
| HillClimbingSearch.SweepEvaluatesInOrder | training/hillclimbing.go:45-63 | a completed sweep evaluates \|movements\| trials per dimension in order, each on committed values before it and original values after it |
| HillClimbingSearch.CompletedDimension | training/hillclimbing.go:47-62 | in a completed sweep each dimension commits and touches only its component |
| HillClimbingSearch.ProductError | training/hillclimbing_test.go:15-19 | the test's error (xy − 25)² is non-negative and never fails |
| HillClimbingSearch.CloserToTarget | training/hillclimbing_test.go:15-19 | a product closer to 25 from below has the smaller error |
| HillClimbingSearch.UnitTrialsOfPair | training/hillclimbing.go:18-24 | the five trials of each component for velocity 1 and acceleration 1 |
| HillClimbingSearch.PickFourth | training/hillclimbing.go:56-59 | falling errors over four trials select trial 3 |
| HillClimbingSearch.PickThird | training/hillclimbing.go:56-59 | errors first lowest at trial 2 select trial 2 |
| HillClimbingSearch.RisingProducts | training/hillclimbing_test.go:23-31 | products rising toward 25 select the forward move |
| HillClimbingSearch.FirstComponentUp | training/hillclimbing_test.go:23-31 | dimension 0 of a sweep from [n, n] moves up by one |
| HillClimbingSearch.SecondComponentUp | training/hillclimbing_test.go:23-31 | dimension 1 from [n+1, n] moves up by one |
| HillClimbingSearch.ClimbsTowardFive | training/hillclimbing_test.go:23-31 | from [n, n], 1 ≤ n ≤ 4, one sweep gives [n+1, n+1] |
| HillClimbingSearch.FiveDimensionStays | training/hillclimbing_test.go:33-36 | at [5, 5] no move of either component beats staying |
| HillClimbingSearch.StaysAtFive | training/hillclimbing_test.go:33-40 | at [5, 5] a sweep stays and the error is 0 |
| HillClimbingSearch.FailingEvaluatorStopsAtOnce | training/hillclimbing_test.go:47-57 | a failing evaluator stops the sweep at the first trial with its error |
| HillClimbingSearch.HillClimbing.constructor | training/hillclimbing.go:9-26 | movements [-a, -1/a, 0, 1/a, a], error MaxFloat64, range [-10, 10], current = memory |
| HillClimbingSearch.HillClimbing.Next | training/hillclimbing.go:44-68 | the sweep's vector; a trial error returns at once with e unchanged; otherwise a final evaluation whose error is stored even when it fails; the evaluations are the sweep's trials then the whole vector; best never written; a successful final evaluation adds its error and the vector to the histories |
| HillClimbingSearch.HillClimbing.Climb | training/hillclimbing.go:45-63 | the dimension loop computes Sweep from the current vector: its vector, its failure and its trials |
| HillClimbingSearch.HillClimbing.Advance | training/hillclimbing.go:45-63 | one dimension moves the sweep forward by one step |
| HillClimbingSearch.HillClimbing.SweepDimension | training/hillclimbing.go:47-62 | the trial loop computes Dimension in place |
| Assignment.MaxAssignment | clustering/assign.go:12-17 | at least every assignment, and 0 or one of them |
| Assignment.Members | clustering/assign.go:19-22 | a group never holds more than the data |
| Assignment.Grouped | clustering/assign.go:18-22 | m + 1 groups |
| Assignment.Assign | clustering/assign.go:8-24 | a length mismatch is an error; otherwise MaxAssignment + 1 groups, group j holding the vectors assigned to j in input order |
| Assignment.GroupedStep | clustering/assign.go:19-22 | one pass appends data[i] to group a[i] and to no other |
| Assignment.MembersAreAssigned | clustering/assign_test.go:14-42 | x is in group j iff some position assigned to j holds x |
| Assignment.TotalSizeAppend | clustering/assign.go:21 | one append adds one vector in total |
| Assignment.EmptyGroupsHoldNothing | clustering/assign.go:18 | empty groups hold no vectors |
| Assignment.GroupedKeepsEveryVector | clustering/assign.go:19-22 | the groups hold exactly as many vectors as the data |
| Assignment.AssignTestCases | clustering/assign_test.go:14-42 | "All to one" and "All to zero" |
| Assignment.GroupEq | clustering/assign.go:30-40 | true iff same length and members pairwise Vector.Eq, i.e. iff the groups are equal |
| Assignment.FirstUnequalVector | clustering/assign.go:34-38 | where Cluster.Eq returns false, or the length |
| Assignment.GroupsEq | clustering/assign.go:46-56 | true iff same length and groups pairwise Cluster.Eq, i.e. iff equal |
| Assignment.FirstUnequalGroup | clustering/assign.go:50-54 | where Clusters.Eq returns false, or the length |
| ClusterCentroids.Mean | clustering/centroid.go:13-25 | the length of the first vector; component j is the column mean |
| ClusterCentroids.Centroid | clustering/centroid.go:6-28 | no data is an error; otherwise Mean |
| ClusterCentroids.MeanOfCopies | clustering/centroid_test.go:24-33 | the mean of copies of v is v |
| ClusterCentroids.ColumnSumOfCopies | clustering/centroid_test.go:24-33 | copies of v sum to \|data\|·v |
| ClusterCentroids.AverageOfOneAndTwo | clustering/centroid_test.go:34-42 | the mean of [1,2,1] and [2,1,2] is [1.5,1.5,1.5] |
| ClusterCentroids.CentroidSlice.constructor | clustering/kmeans.go:45 | a slice holding the given rows |
| ClusterCentroids.Layout | clustering/centroid.go:43-52 | n rows |
| ClusterCentroids.ClusterSums | clustering/centroid.go:62-67 | row sizes kept |
| ClusterCentroids.CentroidsOf | clustering/centroid.go:61-74 | n rows, each of its laid-out width |
| ClusterCentroids.Centroids | clustering/centroid.go:32-77 | no data and a nil pointer are errors; otherwise the centroids land in the caller's rows when there are n of them and are lost when there are not |
| ClusterCentroids.Arrange | clustering/centroid.go:43-52 | the set-up computes Layout |
| ClusterCentroids.ClearRows | clustering/centroid.go:55-59 | every row reset to zero, widths kept |
| ClusterCentroids.SumInto | clustering/centroid.go:62-67 | the sum loop computes ClusterSums |
| ClusterCentroids.DivideRows | clustering/centroid.go:70-74 | every row divided by the count |
| ClusterCentroids.ClusterSumsAreGroupSums | clustering/centroid.go:62-67 | a cluster's sum is its start plus the column sum of the vectors Assign puts in it |
| ClusterCentroids.CentroidIsScaledGroupSum | clustering/centroid.go:61-74 | centroid c, component j is the column sum of group c over the total number of vectors |
| ClusterCentroids.UniformRows | clustering/centroid.go:40-52 | on rows as KMeans keeps them, the demands hold and the result does not depend on the old rows |
| ClusterCentroids.OneClusterIsCentroid | clustering/centroid.go:32-77 | with one cluster Centroids agrees with Centroid |
| ClusterCentroids.AllInOneGroup | clustering/assign.go:19-22 | with every assignment 0, group 0 is all the data |
| KMeansClustering.ScanTo | clustering/kmeans.go:82-99 | the index found lies among the centroids looked at |
| KMeansClustering.ScanFindsFirstNearest | clustering/kmeans.go:82-99 | with no failing distance, the first centroid of least distance |
| KMeansClustering.ScanStopsAtFirstError | clustering/kmeans.go:82-93 | the scan fails iff some distance fails, with the first such error |
| KMeansClustering.ScanErrorStays | clustering/kmeans.go:90-93 | once failed, more centroids change nothing |
| KMeansClustering.FindNearest | clustering/kmeans.go:74-100 | nil or no centroids is an error; otherwise the scan's index and error |
| KMeansClustering.CentroidsFor | clustering/kmeans.go:54 | n rows of the data's width |
| KMeansClustering.BoundedSetSize | clustering/kmeans.go:27-37 | distinct positions below size number at most size |
| KMeansClustering.InitialAssignment | clustering/kmeans.go:24-42 | every assignment in [0, n); a completed start gives every cluster a member, which needs n ≤ size |
| KMeansClustering.DrawFree | clustering/kmeans.go:29-36 | a drawn position is in range and not taken |
| KMeansClustering.Reassign | clustering/kmeans.go:58-69 | each vector moves to its nearest centroid; changed iff some moved; a distance error returns the moves before the failing vector |
| KMeansClustering.KMeans | clustering/kmeans.go:12-72 | the three argument errors; otherwise every assignment in [0, n); more clusters than vectors can only halt; a distance error is some distance call's error; a normal end is a fixed point |
| KMeansClustering.DistanceErrorOf | clustering/kmeans.go:61-64 | a failed scan comes from a failed distance call |
| ClusterSet.KeySumRemove | clustering/cluster.go:119-123 | the member sum does not depend on the map's order |
| ClusterSet.KeySumOfSameMembers | clustering/cluster.go:119-123 | the sum depends only on the members summed |
| ClusterSet.CentroidOf | clustering/cluster.go:110-130 | length kept |
| ClusterSet.CalculateCentroid | clustering/cluster.go:110-130 | a zero vector for no members, otherwise each component the mean over the members in any order |
| ClusterSet.Stored | clustering/cluster.go:97 | every added ID is present |
| ClusterSet.StoredLeavesOthers | clustering/cluster.go:97 | IDs not added keep their vectors |
| ClusterSet.LastMemberWins | clustering/cluster.go:97 | an ID holds the vector of the last member with it |
| ClusterSet.FirstMisfit | clustering/cluster.go:92-96 | the first member of the wrong length, all fitting before it |
| ClusterSet.Zip | clustering/cluster.go:71-83 | member i pairs id i with vector i |
| ClusterSet.StoredStep | clustering/cluster.go:97 | storing one more member is one map update |
| ClusterSet.Cluster.constructor | clustering/cluster.go:45-51 | no members and a zero centroid of the vector length |
| ClusterSet.Cluster.CheckVectorLength | clustering/cluster.go:54-59 | an error naming both lengths iff they differ |
| ClusterSet.Cluster.AddMembers | clustering/cluster.go:91-101 | members stored in order up to the first misfit, whose error is returned with the old centroid; when all fit, the centroid of all members |
| ClusterSet.Cluster.AddMember | clustering/cluster.go:86-88 | stored with a recomputed centroid, or nothing changes on a misfit |
| ClusterSet.Cluster.Add | clustering/cluster.go:62-68 | as AddMember, under the given ID |
| ClusterSet.Cluster.AddRange | clustering/cluster.go:71-83 | one addition per vector up to the first misfit, the centroid recomputed after each |
| ClusterSet.Cluster.Remove | clustering/cluster.go:104-107 | only that ID deleted (nothing if absent), centroid recomputed |
| ClusterSet.OneMemberCentroid | clustering/cluster.go:110-130 | one member's vector is the centroid |
| ClusterSet.CopiesCentroid | clustering/cluster_test.go:21-30 | copies of v have centroid v |
| ClusterSet.KeySumOfCopies | clustering/cluster_test.go:21-30 | copies sum to count·v |
| ClusterSet.TwoMemberCentroid | clustering/cluster_test.go:31-39 | two members average component-wise |
| ClusterSet.OneAmongThreeCopies | clustering/cluster_test.go:68-85 | one ones vector and three threes vectors have centroid 2.5 |
| ClusterSet.CentroidAfterAdditions | clustering/cluster_test.go:58-85 | after "add" and "addrange" the centroid is 2.5 on every axis |
| ClusterSet.CentroidAfterRemoval | clustering/cluster_test.go:86-95 | after deleting "a" the centroid is 3 on every axis |

## Left out

- I/O, concurrency and foreign code are left out:
  - Every `main.go` (drawing, GIF and plot output, OS signals, goroutines) and projection/projection.go.
  - The `String()` JSON methods.
  - The module-level seeding of random/random.go.
- Random constructors are not modelled. `NewNode`, `NewNeuron` and `NewClusterMember` draw random weights or IDs. The node constructor takes its fields, and `Cluster.Add`/`AddRange` take the member IDs. The `crypto/rand` error of `NewClusterMember` cannot arise.
- rbf/gaussian.go and rbf/rickerwavelet.go (transcendental float code) are parameters. `Node.Calculate` evaluates `NewGaussian(1.0, Width, Center)` at the distance. The model takes the RBF as a function g(b, c, x), with b the peak position and c the deviation, and calls it as g(Width, Center, distance), as the source does.
- IEEE-754 behaviour is not modelled: NaN, ±Inf and rounding.
  - `MaxFloat64` is an explicit constant.
  - Divisions state their divisor as non-zero. `Calculus.TangentSlope` needs d ≠ 0, and `Calculus.XInvertsY` needs a non-zero slope.
- `Neuron` in rbf/network.go is the same code as `Node`, and the `Bias` there is the same as rbf/biasnode.go. Both are modelled once. `Network.GetMemory`/`SetMemory` are defined in no file of the repository and are not modelled.
- The network holds two kinds of unit: node objects and bias values. Other implementors of the unit interface are not modelled.
- `Complete`'s trainee is an `RbfNode.Node`, the only trainable type with memory methods in the repository.
- Go slice aliasing is modelled by value copies:
  - `SetMemory` storing sub-slices of its argument.
  - The hill-climbing memory shared with the caller.
  - The centroid rows `Centroids` writes into in place. The model writes the whole slice of rows back.
- Channel and context stoppers are boolean flags polled between iterations. Blocking sends and cancellation from other goroutines are not modelled.
- Fuel bounds replace loops with no termination guarantee: `Complete` without stoppers, the KMeans reassignment loop, and the KMeans seeding retry loop. Each reports running out with `halted`; `DrawFree` returns `None` instead.
- KMeansClustering.DrawFree: states only that a found position is in range and free, not which draws were taken, because the draw stream is an arbitrary parameter.
- KMeansClustering.KMeans: on a distance error, states only that the error came from some distance call and that the assignment is in range. `Reassign` states exactly which entries had moved.
- KMeansClustering.KMeans and ClusterCentroids.Centroid: require every vector to be no longer than the first. With longer vectors Go indexes past the end of the centroid and panics.
- ClusterCentroids.Centroids requires what Go needs to avoid panicking: at least one cluster, assignments in range, and room in each row. A nil row is modelled as an empty row.
- TrainingLoop.Complete: with HillClimbing, the Go evaluator sees each trial, because the trainee's weights are sub-slices of the climber's current vector after `SetMemory` (rbf/node.go:97, 103). The model's evaluator scores the trainee as it was last loaded, so inside one `Next` every trial scores the same and move 0 is always taken.
- TrainingLoop.Complete: its stopping contract is stated only for stoppers that depend on the iteration count and error. Channel and context stoppers are only shown to change no state of the trainee or the algorithm.
- TrainingLoop.Complete and Training.EvaluateTrainee: require a non-empty training set, because Go divides by its size.
- ClusterSet.Cluster: keeps, as its invariant, that every stored vector has the cluster's length. Go's `Data` field is exported, so outside code could break this.
- RbfNetwork.Calculate: on a unit error or a length mismatch Go also returns the partly summed `op` (rbf/network.go:174-176, 183-186). The model returns only the error, and callers in the repository ignore `op` when there is an error.
- RandomGreedySearch and HillClimbing `BestError`/`BestMemory` are field reads. They carry no contract of their own and are used in the contracts of `Next`.
