/** Optional values and results with a distinguished error, as used throughout the model. */
module Wrappers {

  datatype Option<+T> = None | Some(value: T)

  datatype Result<+T, +E> = Ok(value: T) | Err(error: E)
}

/** The exceptions the core raises, one constructor per kind. */
module Errors {

  datatype Error =
    | FfmpegNotAvailable          // FfmpegNotAvailableError: muxing or conversion without ffmpeg
    | NoMatch(quality: string)    // ValueError: no stream with the requested quality label
    | TypeError(message: string)  // TypeError: a quality argument of the wrong type
    | NoStream                    // AttributeError: `.last()` found no audio stream and returned None
    | NotAnInteger(text: string)  // ValueError from `int(text)`
}
