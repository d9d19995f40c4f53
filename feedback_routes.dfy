/**
  backend/src/routes/feedback.js: the `verifyToken` middleware and
  POST /api/feedback. jsonwebtoken's verify is the input `verify`.
 */
module FeedbackRoutes {
  import opened Wrappers
  import opened Text
  import opened Http

  /** `verifyToken`: 401 "No token provided" without a (non-empty)
      Authorization header, 401 "Invalid token" when it has no non-empty second
      space-separated field, 403 "Invalid token" when verification fails,
      otherwise `req.user` is set and `next` runs once. */
  method VerifyToken(ex: Exchange, verify: string -> Option<Payload>)
    requires ex.nextCalls == 0 && ex.reply == None
    modifies ex
    ensures !Truthy(ex.authorization) ==>
      ex.reply == Some((401, "No token provided")) && ex.nextCalls == 0 && ex.user == old(ex.user)
    ensures Truthy(ex.authorization) && !Truthy(SecondWord(ex.authorization.value)) ==>
      ex.reply == Some((401, "Invalid token")) && ex.nextCalls == 0 && ex.user == old(ex.user)
    ensures Truthy(ex.authorization) && Truthy(SecondWord(ex.authorization.value)) ==>
      var decoded := verify(SecondWord(ex.authorization.value).value);
      if decoded.None? then ex.reply == Some((403, "Invalid token")) && ex.nextCalls == 0 && ex.user == old(ex.user)
      else ex.user == decoded && ex.nextCalls == 1 && ex.reply == None
  {
    if !Truthy(ex.authorization) {
      ex.Reject(401, "No token provided");
      return;
    }
    var token := SecondWord(ex.authorization.value);
    if !Truthy(token) {
      ex.Reject(401, "Invalid token");
      return;
    }
    var decoded := verify(token.value);
    if decoded.None? {
      ex.Reject(403, "Invalid token");
    } else {
      ex.Admit(decoded.value);
    }
  }

  /** `{ ok: true, message: ... }` */
  datatype Ack = Ack(ok: bool, message: string)

  /** POST /api/feedback: a falsy message answers 400; any other is
      acknowledged. Nothing is stored. */
  function SubmitFeedback(message: Option<string>): (r: Response<Ack>)
    ensures r.Fail? <==> !Truthy(message)
    ensures r.Fail? ==> r == Fail(400, "Message is required")
    ensures r.Ok? ==> r == Ok(200, Ack(true, "Feedback submitted successfully!"))
  {
    if !Truthy(message) then Fail(400, "Message is required")
    else Ok(200, Ack(true, "Feedback submitted successfully!"))
  }

  /** A header with a doubled space has an empty second field and is refused. */
  lemma DoubleSpaceIsInvalid(token: string)
    ensures SecondWord("Bearer  " + token) == Some("")
  {
    var h := "Bearer  " + token;
    assert h[..6] == "Bearer";
    IndexOfIs(h, ' ', 6);
    assert h[7..][0] == ' ';
  }
}
