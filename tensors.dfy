/** Abstract tensors for the SSL model heads: a tensor is its shape together with a
    symbolic payload that records which layers produced it. No numeric content is kept. */
module Tensors {

  /** The exceptions the heads and layers can raise. */
  datatype Error =
    | UnknownMode(mode: string)                 // ValueError: unknown projection-head mode
    | RankMismatch(shape: seq<nat>)             // AssertionError: LinearLayer.call saw a non rank-2 input
    | IndexOutOfRange(index: int, length: nat)  // IndexError: a Python index outside the list or shape

  datatype Option<T> = None | Some(value: T)

  datatype Result<T> = Ok(value: T) | Err(error: Error)

  /** The value of a Python statement that either completes or raises. */
  datatype Outcome = Pass | Fail(error: Error)

  type Shape = seq<nat>

  /** What a tensor holds, as the computation that produced it. */
  datatype Payload =
    | Source(id: nat)                               // a tensor handed in from outside
    | Affine(arg: Payload, units: nat, bias: bool)  // a dense layer with `units` outputs
    | Normalized(arg: Payload, center: bool)        // batch normalization without ReLU
    | Rectified(arg: Payload)                       // tf.nn.relu

  datatype Tensor = Tensor(shape: Shape, payload: Payload)

  /** The `num_classes` argument of a LinearLayer: a number, or the resolver
      `lambda input_shape: int(input_shape[-1])`. */
  datatype DimSpec = Fixed(n: nat) | FromInputFeatures

  /** Python's `xs[k]` on a list of length `len`: negative indices count from the end. */
  function PyIndex(k: int, len: nat): (r: Result<nat>)
    ensures r.Ok? <==> 0 <= len + k && k < len
    ensures r.Ok? ==> r.value < len
    ensures r.Ok? && 0 <= k ==> r.value == k
    ensures r.Ok? && k < 0 ==> r.value + (-k) == len
    ensures r.Err? ==> r.error == IndexOutOfRange(k, len)
  {
    if 0 <= k < len then Ok(k)
    else if 0 <= len + k && k < 0 then Ok(len + k)
    else Err(IndexOutOfRange(k, len))
  }

  /** The output dimension LinearLayer.build derives from its `num_classes` and the shape it is built for. */
  function Resolve(spec: DimSpec, inputShape: Shape): (r: Result<nat>)
    ensures spec.Fixed? ==> r == Ok(spec.n)
    ensures spec.FromInputFeatures? ==> (r.Ok? <==> |inputShape| > 0)
    ensures spec.FromInputFeatures? && r.Ok? ==> r.value == inputShape[|inputShape| - 1]
  {
    match spec
    case Fixed(n) => Ok(n)
    case FromInputFeatures =>
      match PyIndex(-1, |inputShape|)
      case Ok(i) => Ok(inputShape[i])
      case Err(e) => Err(e)
  }

  /** tf.nn.relu: elementwise, so the shape is kept. */
  function Relu(t: Tensor): (r: Tensor)
    ensures r.shape == t.shape
    ensures r != t
  {
    Tensor(t.shape, Rectified(t.payload))
  }
}
