/** The exceptions the crawl core raises, as values. */
module Errors {

  datatype Error =
    | InvalidUrl(url: string)       // Spizer_Exception: not a valid HTTP URL
    | MissingMatch                  // Spizer_Handler_Exception: no string to match configured
    | LoggerAlreadySet              // Spizer_Exception from setLogger
    | LoggerNotSet                  // Spizer_Exception from log
    | NullEngine                    // PHP fatal error: method call on the undefined `engine` property
}
