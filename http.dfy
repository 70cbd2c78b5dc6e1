/** What a handler answers: a status code and a JSON reply. */
module Http {

  import opened Values
  import opened ActivityLog

  /** The error replies of the handlers, one per distinct error body. */
  datatype Failure =
    | SessionRequired     // 401 'Session requise': no X-Session-Id header
    | SessionExpired      // 401 'Session expirée': unknown or expired session
    | BadCredentials      // 401 'Identifiants incorrects'
    | InvalidImage        // 400 'Image invalide': no data, or not a data:image URI
    | InvalidImageFormat  // 400 'Format image invalide': the URI pattern does not match
    | ProductNotFound     // 404 'Produit non trouvé'
    | OrderNotFound       // 404 'Commande non trouvée'
    | SaveFailed          // 500 'Échec de sauvegarde': the database write failed
    | Crashed             // 500 with the message of an exception the handler raised
    | MethodNotAllowed    // 405 'Method not allowed'

  datatype Result<+T> = Ok(value: T) | Err(failure: Failure)

  datatype Reply =
    | Empty                                     // `res.end()`
    | Error(failure: Failure)                   // `{error: ...}` or `{success: false, ...}`
    | Done                                      // `{success: true, message}`
    | Item(rec: Record)                         // one product or order
    | Items(recs: seq<Record>)                  // a product or order listing
    | Logs(entries: seq<LogEntry>)              // the log listing
    | LoggedIn(sessionId: string)               // `{success: true, sessionId, message}`
    | Uploaded(imageUrl: string, filename: string)

  datatype Response = Response(status: nat, reply: Reply)

  /** The status code each failure is answered with. */
  function StatusOf(f: Failure): nat
  {
    match f
    case SessionRequired => 401
    case SessionExpired => 401
    case BadCredentials => 401
    case InvalidImage => 400
    case InvalidImageFormat => 400
    case ProductNotFound => 404
    case OrderNotFound => 404
    case SaveFailed => 500
    case Crashed => 500
    case MethodNotAllowed => 405
  }

  /** The reply to a request that fails with `f`. */
  function Reject(f: Failure): Response
  {
    Response(StatusOf(f), Error(f))
  }
}
