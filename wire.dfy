/** The JSON wire contract between the browser and the prediction service. */
module Wire {
  import opened Wrappers

  /** One hand keypoint as the browser's hand detector reports it (normalised coordinates). */
  datatype Landmark = Landmark(x: real, y: real, z: real)

  /** The landmarks of one detected hand. */
  type Hand = seq<Landmark>

  /** An outbound frame: `results.landmarks`, one landmark list per detected hand, sent as a JSON array. */
  type Outbound = seq<Hand>

  /**
   * An inbound message after `JSON.parse`, reduced to the three fields the prediction
   * handler reads; an absent field is `None`.
   */
  datatype Inbound = Inbound(error: Option<string>, prediction: Option<string>, confidence: Option<real>)
}
