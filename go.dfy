/** The Go values that cross the logging facade's interface{} parameters. */
module Go {

  /** A possibly absent value; `None` stands for Go's nil. */
  datatype Option<+T> = None | Some(value: T)

  /** A non-nil Go `error`, known by the text its Error method returns. */
  datatype Error = Error(text: string)

  /** An `*http.Response`, known only by its identity; its dump comes from an oracle. */
  datatype Response = Response(id: nat)

  /** The dynamic value behind one `interface{}` argument of a logging call. */
  datatype Value =
    | Str(s: string)                // a Go string
    | ErrorValue(err: Error)        // a non-nil error
    | HttpResponse(resp: Response)  // an *http.Response
    | Other(text: string)           // any other value, by its %v text
    | Slice(items: seq<Value>)      // a []interface{} handed over as one argument

  /** The text fmt's %v verb gives a possibly nil error. */
  function ErrorText(err: Option<Error>): string
  {
    match err
    case None => "<nil>"
    case Some(e) => e.text
  }
}
