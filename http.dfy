/**
 * The Express request and response objects as the handlers use them, and the
 * application's error path: an `ApiError` thrown inside a handler reaches the
 * global error handler (backend/src/app.js), which answers with the error's
 * status code, or 500 when it has none, and `{ success: false, message }`.
 */
module Http {
  import opened Wrappers
  import Jwt
  import AdminModel

  datatype CookieOp = SetCookie(name: string, value: string, config: Jwt.CookieConfig) | ClearCookie(name: string)

  /**
   * A thrown error: `new ApiError(statusCode, message, errors, code)`, or, with
   * `statusCode` 0, a plain `Error`, which carries no status code.
   */
  datatype ApiError = ApiError(statusCode: nat, message: string, code: Option<string>)

  /** `err.statusCode || 500` */
  function ErrorStatus(e: ApiError): (status: nat)
    ensures status != 0
    ensures e.statusCode != 0 ==> status == e.statusCode
    ensures e.statusCode == 0 ==> status == 500
  {
    if e.statusCode == 0 then 500 else e.statusCode
  }

  /**
   * A JSON body: `new ApiResponse(status, data, message)`, or the failure
   * object a middleware or the global handler writes.
   */
  datatype Body<D> =
    | Data(data: D, message: string)
    | Fail(message: string, code: Option<string>, retryAfter: Option<nat>)

  class Response<D> {
    var status: nat
    var cookies: seq<CookieOp>
    var body: Option<Body<D>>

    constructor()
      ensures status == 200 && cookies == [] && body == None
    {
      status := 200;
      cookies := [];
      body := None;
    }

    /** `res.cookie(name, value, config)` */
    method Cookie(name: string, value: string, config: Jwt.CookieConfig)
      modifies this
      ensures cookies == old(cookies) + [SetCookie(name, value, config)]
      ensures status == old(status) && body == old(body)
    {
      cookies := cookies + [SetCookie(name, value, config)];
    }

    /** `res.clearCookie(name)` */
    method ClearCookie(name: string)
      modifies this
      ensures cookies == old(cookies) + [CookieOp.ClearCookie(name)]
      ensures status == old(status) && body == old(body)
    {
      cookies := cookies + [CookieOp.ClearCookie(name)];
    }

    /** `res.status(status).json(body)` */
    method Json(status: nat, body: Body<D>)
      modifies this
      ensures this.status == status && this.body == Some(body)
      ensures cookies == old(cookies)
    {
      this.status := status;
      this.body := Some(body);
    }

    /** The global error handler answering for a thrown error. */
    method Error(e: ApiError)
      modifies this
      ensures status == ErrorStatus(e) && body == Some(Fail(e.message, None, None))
      ensures cookies == old(cookies)
    {
      status := ErrorStatus(e);
      body := Some(Fail(e.message, None, None));
    }
  }

  /** The parts of a request the authentication code reads and writes. */
  class Request {
    /** Parsed cookies, `req.cookies`. */
    const cookies: map<string, string>
    /** `req.headers.authorization` */
    const authorization: Option<string>
    /** `req.admin` and `req.adminId`, set by the authentication gates. */
    var admin: Option<AdminModel.AdminView>
    var adminId: Option<AdminModel.AdminId>

    constructor(cookies: map<string, string>, authorization: Option<string>)
      ensures this.cookies == cookies && this.authorization == authorization
      ensures admin == None && adminId == None
    {
      this.cookies := cookies;
      this.authorization := authorization;
      admin := None;
      adminId := None;
    }

    /** A cookie's value when it is present and non-empty, as a truthiness test reads it. */
    function CookieValue(name: string): (r: Option<string>)
      ensures r.Some? <==> name in cookies && cookies[name] != []
      ensures r.Some? ==> r.value == cookies[name]
    {
      if name in cookies && cookies[name] != [] then Some(cookies[name]) else None
    }
  }
}
