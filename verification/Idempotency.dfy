/** The idempotency-key table and what one request does with it. */
module Idempotency {
  /** What the request hash identifies: method, path and body. */
  datatype Call = Call(verb: string, path: string, body: string)

  /** A claimed key; status 0 means that its request is still in flight. */
  datatype Row = Row(call: Call, status: nat, body: string)

  datatype Reason = Vanished | Reused | InFlight

  /**
   * Handler: the handler ran and answered. Replayed: a stored response. Conflict: status 409, the handler did not
   * run.
   */
  datatype Reply = Handler(status: nat, body: string) | Replayed(status: nat, body: string) | Conflict(reason: Reason)

  const SERVER_ERROR: nat := 500

  /** What a request that lost the claim is answered. */
  function Answer(rows: map<string, Row>, key: string, call: Call): Reply {
    if key !in rows then Conflict(Vanished)
    else if rows[key].call != call then Conflict(Reused)
    else if rows[key].status == 0 then Conflict(InFlight)
    else Replayed(rows[key].status, rows[key].body)
  }

  /**
   * The reply to a request that nothing interferes with, and the table it leaves: the stored response, a conflict with
   * its reason, or the handler's answer. The key stays free after a server error that was released, and is taken by
   * the answer, or by nothing that could be replayed, after any other end.
   */
  ghost predicate Handled(rows: map<string, Row>, key: string, call: Call, status: nat, body: string, stores: bool,
      releases: bool, reply: Reply, rows': map<string, Row>) {
    if key == "" then reply == Handler(status, body) && rows' == rows
    else if key in rows then
      && rows' == rows
      && reply == if rows[key].call != call then Conflict(Reused)
                  else if rows[key].status == 0 then Conflict(InFlight)
                  else Replayed(rows[key].status, rows[key].body)
    else
      && reply == Handler(status, body)
      && rows' == if status >= 500 && releases then rows
                  else rows[key := if status < 500 && stores then Row(call, status, body) else Row(call, 0, "")]
  }

  // ---- What each statement does to the table ----

  function Claimed(rows: map<string, Row>, key: string, call: Call): map<string, Row> {
    if key in rows then rows else rows[key := Row(call, 0, "")]
  }

  function Stored(rows: map<string, Row>, key: string, status: nat, body: string): map<string, Row> {
    if key in rows then rows[key := rows[key].(status := status, body := body)] else rows
  }

  function Released(rows: map<string, Row>, key: string): map<string, Row> { rows - {key} }

  class KeyTable {
    var rows: map<string, Row>

    constructor ()
      ensures rows == map[]
    {
      rows := map[];
    }

    /** A unique insert that does nothing when the key is taken. */
    method Claim(key: string, call: Call) returns (won: bool)
      modifies this
      ensures won <==> key !in old(rows)
      ensures rows == Claimed(old(rows), key, call)
    {
      won := key !in rows;
      if won {
        rows := rows[key := Row(call, 0, "")];
      }
    }

    /** An update of the key's row, if there is one. */
    method Store(key: string, status: nat, body: string)
      modifies this
      ensures rows == Stored(old(rows), key, status, body)
    {
      if key in rows {
        rows := rows[key := rows[key].(status := status, body := body)];
      }
    }

    method Release(key: string)
      modifies this
      ensures rows == Released(old(rows), key)
    {
      rows := rows - {key};
    }

    method ReplayExisting(key: string, call: Call) returns (reply: Reply)
      ensures reply == Answer(rows, key, call)
      ensures reply == Conflict(Vanished) <==> key !in rows
      ensures reply == Conflict(Reused) <==> key in rows && rows[key].call != call
      ensures reply == Conflict(InFlight) <==> key in rows && rows[key].call == call && rows[key].status == 0
      ensures key in rows && rows[key].call == call && rows[key].status != 0 ==>
                reply == Replayed(rows[key].status, rows[key].body)
    {
      if key !in rows { return Conflict(Vanished); }
      var existing := rows[key];
      if existing.call != call { return Conflict(Reused); }
      if existing.status == 0 { return Conflict(InFlight); }
      return Replayed(existing.status, existing.body);
    }

    /**
     * One request from arrival to reply. `status` and `body` are what the handler answers if it runs; `stores` and
     * `releases` say whether the statement after it reaches the database.
     */
    method Serve(key: string, call: Call, status: nat, body: string, stores: bool, releases: bool)
      returns (reply: Reply)
      modifies this
      ensures Handled(old(rows), key, call, status, body, stores, releases, reply, rows)
    {
      if key == "" { return Handler(status, body); }
      var won := Claim(key, call);
      if !won {
        reply := ReplayExisting(key, call);
        return;
      }
      reply := Handler(status, body);
      if status >= SERVER_ERROR {
        if releases {
          Release(key);
          assert old(rows)[key := Row(call, 0, "")] - {key} == old(rows);
        }
        return;
      }
      if stores { Store(key, status, body); }
    }

    /** Retrying after a stored answer returns that answer and does not run the handler, whatever it would now do. */
    method Retry(key: string, call: Call, status: nat, body: string, status': nat, body': string)
      returns (first: Reply, second: Reply)
      requires key != "" && key !in rows && 0 < status < SERVER_ERROR
      modifies this
      ensures first == Handler(status, body) && second == Replayed(status, body)
    {
      first := Serve(key, call, status, body, true, true);
      second := Serve(key, call, status', body', true, true);
    }
  }
}
