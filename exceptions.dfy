/** The exceptions the connector and the API client can raise, as values. */
module Exceptions {

  datatype Error =
    /** `raise_for_status` on a 4xx or 5xx response. */
    | HttpError(status: int)
    /** The transport could not deliver the request (no response at all). */
    | ConnectionError
    /** `resp.json()` on a body that is not JSON. */
    | InvalidJsonBody
    /** Lookup of a header the response does not carry (`resp.headers["Access-Token"]`). */
    | MissingHeader(header: string)
    /** `str.encode("ascii")` on text holding a character above 127. */
    | UnicodeEncodeError
    /** `.encode` called on a value that is not a string. */
    | NotAString
    /** Subscript of a mapping with a key it does not hold (`param["data"]`, `resp['data']`). */
    | KeyError(key: string)
    /** A call through `**kwargs` that leaves a required parameter without a value. */
    | MissingArgument(name: string)
    /** A call through `**kwargs` with a keyword the callee does not declare. */
    | UnexpectedArgument
    /** A comparison `1 <= sev` on a value that is not a number. */
    | NotComparable
    /** `parse_case_args`: a severity outside 1..5. */
    | SeverityOutOfRange(severity: int)
    /** `json.loads` on a string that is not valid JSON. */
    | JsonDecodeError(field: string)
    /** `json.loads` on a value that is not a string. */
    | JsonTypeError(field: string)
    /** A page of `get_cases_filtered` whose shape cannot be walked. */
    | MalformedPage
    /** `handle_action`: no `_handle_<id>` exists for the action identifier. */
    | RuntimeError(missing: string)
}
