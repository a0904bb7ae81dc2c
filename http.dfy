/**
 * Shared vocabulary of the request handlers: optional values, results of
 * foreign calls, flash messages and the response a handler or a middleware
 * function produces.
 */
module Http {

  datatype Option<+T> = None | Some(value: T)

  /** The outcome of a call whose failure carries the library's error message. */
  datatype Result<+T> = Ok(value: T) | Err(message: string)

  /** The categories connect-flash is used with. */
  datatype Level = Success | Info | Warning | Error

  datatype Flash = Flash(level: Level, text: string)

  /** `res.redirect("back")`, a redirect to a fixed path, or to the page of
      one campground (`"/campgrounds/" + campground._id`). */
  datatype Target = Back | Path(path: string) | CampgroundPage(id: nat)

  /** Objects handed to `res.send`. */
  datatype Body = ErrorBody(error: string) | SecretBody(clientSecret: string)

  datatype Response =
    | Next                                        // a middleware function calls next()
    | Redirect(flash: Option<Flash>, to: Target)  // a flash message (if any) and a redirect
    | Render(view: string, error: Option<string>) // a page is rendered
    | Send(body: Body)                            // a JSON object is sent
    | Fail(reason: string)                        // an error reaches Express's error handler
    | Crash(reason: string)                       // an exception escapes an asynchronous callback
    | NoReply                                     // the handler never answers
}
