/** The exceptions that cross a service boundary (app/error/exceptions.py). */
module Exceptions {

  /**
   * `WeatherAPIError` and `MusicAPIError` are the two typed service errors;
   * `OtherException` is any other Python exception. `message` is `str(e)`.
   */
  datatype ServiceError =
    | WeatherApiError(message: string)
    | MusicApiError(message: string)
    | OtherException(message: string)
}
