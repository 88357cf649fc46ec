/** Results and failures shared by both servers.

    Every `abort(400, ...)` of the Flask server and every `res.status(400)` of the
    Express server is one `Error` variant; so is each runtime exception that the
    code can raise on a reachable input (those would end the request with a 500 in
    Flask, or with an uncaught exception in Node). */
module Outcome {

  datatype Option<+T> = None | Some(value: T)

  datatype Error =
    // --- client errors (HTTP 400) of the Flask server ---
    | FormFieldMissing(field: string)     // request.form['user'] without a 'user' field
    | UserExists(user: string)            // add_user on an already registered name
    | NoSuchUser(user: string, route: string)  // _find_user_or_abort
    | NotJson                             // /add_dashboard without Content-Type application/json
    | MissingFields(fields: set<string>)  // /add_dashboard body lacking required fields
    | NameRequired(route: string)         // _get_name_from_request without a name
    // --- client errors (HTTP 400) of the Express server ---
    | FieldsRequired                      // /add_dashboard without name or dashboard
    | InvalidSecret                       // /add_dashboard with a wrong studio_secret
    // --- runtime exceptions ---
    | ValueError                          // max() of an empty sequence
    | TypeError                           // subscripting None
    | AttributeError                      // .lower() on a value that is not a string
    | ReferenceError(identifier: string)  // use of an undeclared JavaScript identifier

  datatype Result<+T> = Ok(value: T) | Err(error: Error)
}
