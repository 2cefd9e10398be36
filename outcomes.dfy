/** Option/Result wrappers and the error values the core reports. */
module Outcomes {

  datatype Option<+T> = None | Some(value: T)

  datatype Result<+T> = Success(value: T) | Failure(error: Error)

  /** The errors of the stereo camera and of the flow movement sensor, one constructor per kind. */
  datatype Error =
    | DimensionMismatch                         // "images must have the same dimensions"
    | InvalidDuration                           // "time between frames must be positive"
    | NoImages                                  // "no images"
    | StaleData(lastUpdate: int)                // "no update since <lastUpdate>"
    | NeedField(field: string)                  // "need left", "need right", ...
    | WrongImageCount(side: string, count: int) // "why is leftAll <n>"
    | CameraFailure(cause: string)              // an error passed through from a camera
}
