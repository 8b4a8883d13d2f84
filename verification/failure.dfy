/** The errors the login flow can return, and the HTTP status each maps to. */
module Failure {
  import Redis
  import Strconv

  datatype Error =
    | CacheError(cause: Redis.RedisError)  // propagated from the cache
    | Parse(num: Strconv.NumError)     // the stored counter is not an integer
    | Repo(reason: string)             // the user repository failed
    | Forbidden                        // too many failed attempts
    | Unauthorized                     // unknown email or wrong password

  /** `failure.GetCode`: the status a handler answers with. */
  function Code(e: Error): (status: int)
    ensures e.Forbidden? <==> status == 403
    ensures e.Unauthorized? <==> status == 401
  {
    match e
    case Forbidden => 403
    case Unauthorized => 401
    case _ => 500
  }
}
