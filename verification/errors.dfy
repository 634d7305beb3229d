/** Failure values of the network orchestrator and the result type of its checked operations.
    Every fatal assertion of the orchestrator becomes one constructor of `Error`. */
module Errors {

  datatype Error =
    // building the layer chain
    | LayersEmpty                    // no layer descriptors at all
    | TooFewLayers                   // a single descriptor
    | FirstNotInput                  // the first descriptor is not of type "i"
    | UnknownLayerType(tag: string)  // a later descriptor is not "c", "s" or "f"
    | LastNotFull                    // the last descriptor is not of type "f"
    // training and classification inputs
    | DataRank                       // the data array does not have 3 dimensions
    | DataSize                       // the data maps differ from the input layer's map size
    | LabelRank                      // the label array does not have 2 dimensions
    | LabelClasses                   // label rows differ from the last layer's class count
    | LabelCount                     // label columns differ from the number of samples
    // backward pass
    | BatchSizeMismatch              // label columns differ from the last layer's batch size
    | ClassCountMismatch             // label rows differ from the last layer's class count
    | UnknownFunction(name: string)  // the last layer's function is neither "SVM" nor "sigmoid"
    // loading weights
    | WeightsTooLong                 // values are left over after every layer took its share

  /** Success carrying a value, or one of the fatal errors above. */
  datatype Result<+T> = Ok(value: T) | Fail(error: Error) {

    predicate IsFailure() {
      Fail?
    }

    function PropagateFailure<U>(): Result<U>
      requires Fail?
    {
      Fail(error)
    }

    function Extract(): T
      requires Ok?
    {
      value
    }
  }
}
