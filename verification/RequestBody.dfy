/**
 The cumulative body bound (RequestBudgetMiddleware.limited_receive in app/api/security.py).
 The application may go on receiving after a refusal.
 */
module RequestBody {

  /** An `http.request` message with its body's size, or any other message. */
  datatype Message = Body(size: nat) | NoBody

  function Total(messages: seq<Message>): nat {
    if messages == [] then 0
    else
      var last := messages[|messages| - 1];
      Total(messages[..|messages| - 1]) + if last.Body? then last.size else 0
  }

  /** Whether the i-th message reached the application; otherwise the call raised. */
  predicate Delivered(maximum: nat, messages: seq<Message>, i: nat)
    requires i < |messages|
  {
    messages[i].NoBody? || Total(messages[..i + 1]) <= maximum
  }

  class LimitedReceiver {
    const maximum: nat
    var total: nat
    ghost var received: seq<Message>

    ghost predicate Valid()
      reads this
    {
      total == Total(received)
    }

    constructor (maximum: nat)
      ensures Valid() && this.maximum == maximum && received == []
    {
      this.maximum, total, received := maximum, 0, [];
    }

    /** One call of `limited_receive`, given what the server's `receive` returned. */
    method Receive(message: Message) returns (delivered: bool)
      requires Valid()
      modifies this
      ensures Valid() && received == old(received) + [message]
      ensures delivered == Delivered(maximum, received, |received| - 1)
    {
      received := received + [message];
      assert received[..|received| - 1] == old(received) && received[..|received|] == received;
      if message.Body? {
        total := total + message.size;
        if total > maximum {
          return false;
        }
      }
      return true;
    }
  }

  function DeliveredBytes(maximum: nat, messages: seq<Message>, n: nat): nat
    requires n <= |messages|
  {
    if n == 0 then 0
    else
      DeliveredBytes(maximum, messages, n - 1)
      + if messages[n - 1].Body? && Delivered(maximum, messages, n - 1) then messages[n - 1].size else 0
  }

  /** The application never sees more than the maximum; it sees everything when everything fits. */
  lemma {:induction false} DeliveredIsBounded(maximum: nat, messages: seq<Message>, n: nat)
    requires n <= |messages|
    ensures DeliveredBytes(maximum, messages, n) <= maximum
    ensures Total(messages[..n]) <= maximum ==> DeliveredBytes(maximum, messages, n) == Total(messages[..n])
  {
    if n > 0 {
      assert messages[..n][..n - 1] == messages[..n - 1];
      DeliveredIsBounded(maximum, messages, n - 1);
    }
  }

  lemma {:induction false} TotalGrows(messages: seq<Message>, i: nat, j: nat)
    requires i <= j <= |messages|
    ensures Total(messages[..i]) <= Total(messages[..j])
  {
    if i < j {
      assert messages[..j][..j - 1] == messages[..j - 1];
      TotalGrows(messages, i, j - 1);
    }
  }

  /** A refusal is final for bodies, even empty ones; other messages still pass. */
  lemma {:induction false} RefusalIsFinal(maximum: nat, messages: seq<Message>, i: nat, j: nat)
    requires i <= j < |messages| && !Delivered(maximum, messages, i)
    ensures Delivered(maximum, messages, j) <==> messages[j].NoBody?
  {
    TotalGrows(messages, i + 1, j + 1);
  }
}
