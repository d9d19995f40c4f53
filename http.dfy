/** What the Express handlers exchange with their callers. */
module Http {
  import opened Wrappers
  import opened Text

  /** A handler's reply: a success body, or an error status with `{ error }`. */
  datatype Response<T> = Ok(code: nat, value: T) | Fail(code: nat, error: string)

  /** The claims of a JSON web token once verified (`req.user`). The signature
      and the `iat`/`exp` claims are not modelled. */
  type Payload = map<string, string>

  /** `header.split(" ")[1]`: the second space-separated field, absent when
      the header has no space. It is the text after the first space, up to the
      next space or the end. */
  function SecondWord(header: string): (w: Option<string>)
    ensures w.Some? <==> ' ' in header
    ensures w.Some? ==> ' ' !in w.value
    ensures w.Some? ==>
      var rest := header[IndexOf(header, ' ') + 1..];
      w.value <= rest && (|w.value| == |rest| || rest[|w.value|] == ' ')
  {
    SecondField(header, ' ');
    var fields := Split(header, ' ');
    if |fields| > 1 then Some(fields[1]) else None
  }

  /** The part of a request and its response that a token middleware touches:
      the Authorization header it reads, the `req.user` it sets, the error reply
      it may send, and how often it hands on to `next()`. */
  class Exchange {
    const authorization: Option<string>
    var user: Option<Payload>
    var reply: Option<(nat, string)>
    var nextCalls: nat

    constructor (authorization: Option<string>)
      ensures this.authorization == authorization
      ensures user == None && reply == None && nextCalls == 0
    {
      this.authorization := authorization;
      user := None;
      reply := None;
      nextCalls := 0;
    }

    /** `res.status(code).json({ error })` */
    method Reject(code: nat, error: string)
      modifies this
      ensures reply == Some((code, error))
      ensures user == old(user) && nextCalls == old(nextCalls)
    {
      reply := Some((code, error));
    }

    /** `req.user = user; next();` */
    method Admit(user: Payload)
      modifies this
      ensures this.user == Some(user) && nextCalls == old(nextCalls) + 1
      ensures reply == old(reply)
    {
      this.user := Some(user);
      nextCalls := nextCalls + 1;
    }
  }
}
