/**
 * Every error value the toolkit returns. Go builds most of them with errors.New or fmt.Errorf;
 * the model keeps the information in the message as constructor arguments.
 */
module Errors {

  datatype Error =
    // distance/errors.go
    | NilVector
    | MismatchedVectorLengths
    | ZeroLengthVector
    // rbf/node.go: the input has inputLength values but the node has weightCount weights
    | InputLengthMismatch(inputLength: int, weightCount: int)
    // rbf/network.go, NewNetwork
    | NoNeurons
    | MismatchedNeuronOutputs(index: int, outputs: int, expected: int)
    // rbf/network.go, Network.Calculate
    | NoNeuronsToCalculate
    | OutputNodeMismatch(configured: int, index: int, outputs: int)
    // training/complete.go
    | TrainingDataFailed(cause: Error)
    | DistanceFailed(cause: Error)
    | IterationFailed(iteration: int, cause: Error)
    // clustering/assign.go
    | AssignmentLengthMismatch
    // clustering/cluster.go
    | VectorLengthMismatch(expected: int, actual: int)
    // clustering/centroid.go
    | CentroidNoData
    | CentroidsNoData
    | CentroidsNil
    // clustering/kmeans.go
    | NonPositiveClusterCount
    | NilData
    | EmptyData
    | NoCentroids
    // an error produced by an injected collaborator (an evaluator, a distance function)
    | External(message: string)
}
