/** Values shared by the transcription backends and the speech service. */
module Common {

  datatype Option<T> = None | Some(value: T)

  /** One landmark of a tracked hand, in normalised image coordinates. */
  datatype Point = Point(x: real, y: real, z: real)

  /** A tracked hand: its landmark points in the tracker's order. */
  type Hand = seq<Point>

  /** The detection record the backend keeps between requests: the detected
      character (or ""), the classifier's confidence and an optional status
      message. A record without a message is serialised without that key. */
  datatype Detection = Detection(ch: string, confidence: real, message: Option<string>)

  /** Why a route failed; each route answers with one of these in its error body. */
  datatype Failure =
    | NotInitialised     // the model, the tracker or the speech pipeline did not load
    | NoImageData        // the request body has no image_data key
    | DecodeFailed       // the data URL could not be turned into an image
    | TrackingFailed     // the hand tracker raised, outside any try: Flask's own 500
    | PredictionFailed   // the classifier (or the reduction over its output) raised
    | MissingText        // the speech service got a JSON body of null or {}, or one without a text key
    | NoText             // the text to speak is empty once stripped
    | SynthesisFailed    // the synthesiser or the file write raised
    | NoAudio            // the synthesiser produced no usable chunk

  /** The HTTP outcome of a route: a JSON body with status 200, or an error
      body with status 400 or 500. */
  datatype Response<T> = Ok(body: T) | Err400(failure: Failure) | Err500(failure: Failure)
}
