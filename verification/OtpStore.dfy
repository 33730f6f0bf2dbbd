/** One pending code per user; consuming checks and removes it. */
module OtpStore {
  import opened Wrappers

  class OtpStore {
    /** By user id. */
    var pending: map<string, string>

    constructor ()
      ensures pending == map[]
    {
      pending := map[];
    }

    method Store(userId: string, code: string)
      modifies this
      ensures pending == old(pending)[userId := code]
    {
      pending := pending[userId := code];
    }

    method Consume(userId: string, code: string) returns (r: Result<(), StoreError>)
      modifies this
      ensures r.Ok? <==> userId in old(pending) && old(pending)[userId] == code
      ensures pending == if r.Ok? then old(pending) - {userId} else old(pending)
    {
      if userId in pending && pending[userId] == code {
        pending := pending - {userId};
        return Ok(());
      }
      return Err(InvalidToken);
    }
  }
}
