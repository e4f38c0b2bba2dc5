/** The values a request can carry once its JSON body or its query string has been parsed. */
module Json {

  datatype Value =
    | Num(n: real)      // a JavaScript number (a finite one: there is no NaN here)
    | Str(s: string)    // in a query string or a path: a string that does not read as a number
    | Bool(b: bool)
    | Null
    | Composite         // an array or a nested object; no schema of the service accepts one here

  /** The keys and values of one JSON object (a body, the query, the path parameters). */
  type Fields = map<string, Value>
}
