/** Values shared by every handler: optional values, the reply envelope each
    endpoint answers with, the caller context WordPress supplies to the AJAX
    handlers, and the PHP truthiness rules the source relies on when it writes
    `if ($x)`, `$x ?: $default` or `(bool)$x`. */
module Common {

  datatype Option<+T> = None | Some(value: T)

  /** A handler's answer: success (HTTP 200) with a payload, or an HTTP error
      status with the message of the error envelope. */
  datatype Reply<+T> = Ok(value: T) | Err(status: nat, message: string)

  /** What an AJAX handler learns from WordPress about its caller: whether the
      request's nonce checks out, the current user id (0 when nobody is logged
      in) and the two capabilities the enroll handler consults. */
  datatype AjaxContext = AjaxContext(nonceValid: bool, userId: nat, canEdit: bool, canView: bool)

  /** `is_user_logged_in()`: the current user id is not 0. */
  predicate LoggedIn(c: AjaxContext)
  {
    c.userId != 0
  }

  /** The reply `check_ajax_referer` produces when the nonce is rejected. */
  const NonceRejected: Reply<string> := Err(403, "-1")

  /** PHP's truthiness of a string: "" and "0" are false, every other string is true. */
  predicate Truthy(s: string)
  {
    s != "" && s != "0"
  }

  /** A request parameter as the REST layer hands it over: absent (null), text
      from the query string or form body, or a JSON boolean. */
  datatype Param = Missing | Text(text: string) | Flag(flag: bool)

  /** PHP's `(bool)` cast of a request parameter. */
  predicate BoolCast(p: Param)
  {
    match p
    case Missing => false
    case Text(s) => Truthy(s)
    case Flag(b) => b
  }
}
