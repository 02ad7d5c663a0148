/** The camera frame source: one HTTP GET to the Raspberry Pi camera server,
    decoded into a colour frame, or `None` on any failure. */
module Camera {
  import opened Wrappers

  /** The HTTP status the camera server answers with when it sends an image. */
  const StatusOk: int := 200

  /** A decoded colour frame (width, height and BGR bytes); its content is opaque here. */
  datatype Frame = Frame(width: nat, height: nat, pixels: seq<bv8>)

  /** What the single GET request to the camera produced: either the request itself
      raised (timeout, refused connection, ...), or a response arrived with a status
      code and a body that the image decoder either turned into a frame or rejected. */
  datatype FetchOutcome =
    | TransportFailed(message: string)
    | Responded(status: int, decoded: Option<Frame>)

  /** The frame handed to the pipeline: present only for a 200 response whose body
      decodes; every other status and every transport error yields `None`, and the
      fetch never raises to its caller. */
  function FetchFrame(o: FetchOutcome): Option<Frame>
  {
    match o
    case TransportFailed(_) => None
    case Responded(status, decoded) =>
      if status == StatusOk then decoded else None
  }
}
