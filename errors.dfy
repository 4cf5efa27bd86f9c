/** The errors the system produces or passes through. Go's `error` values become
    constructors; the texts of `errors.New` and `fmt.Errorf` are kept verbatim. */
module Errors {

  datatype Error =
    | Message(text: string)                 // errors.New / fmt.Errorf without a wrapped cause
    | Wrapped(prefix: string, cause: Error)  // fmt.Errorf("<prefix> %w", cause)
    | NotExist(path: string)                 // os.ErrNotExist
    | Exist(path: string)                    // os.ErrExist (Mkdir of an existing entry)
    | IoFailure(path: string)                // any other failure the operating system reports
    | Closed                                 // os.ErrClosed (use of a closed descriptor)
    | BodyRead                               // a failed read of an HTTP response body
    | CodecFailure                           // an encoding/json or yaml.v3 error
    | AlreadyExists                          // config.ErrAlreadyExists
    | ConfigNotFound                         // utils.ConfigNotFoundError
    | UrlInvalid(url: string)                // a *url.Error from url.Parse

}
