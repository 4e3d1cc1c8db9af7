/**
 * The bot's memory of error texts already delivered to the chat
 * (`LIST_OF_ERRORS`) and the reporting routine that consults it
 * (`send_and_logging_error`). The chat send itself is outside the model:
 * its outcome is an input, `delivered`, true when the send returned a
 * message object.
 */
module ErrorReports {

  predicate NoDuplicates(s: seq<string>)
  {
    forall i, j :: 0 <= i < j < |s| ==> s[i] != s[j]
  }

  /**
   * The list of delivered error texts after `message` is reported: a text
   * already in the list is not sent again; a new text is appended when, and
   * only when, its send was delivered.
   */
  function AfterReport(sent: seq<string>, message: string, delivered: bool): (r: seq<string>)
    ensures sent <= r && |r| <= |sent| + 1
    ensures NoDuplicates(sent) ==> NoDuplicates(r)
    ensures message in r <==> message in sent || delivered
    ensures forall m :: m in r && m !in sent ==> m == message
  {
    if message in sent then sent
    else if delivered then sent + [message]
    else sent
  }

  /** The module-level `LIST_OF_ERRORS`, with the reporting routine as a method. */
  class ErrorLog {
    var sent: seq<string>

    ghost predicate Valid()
      reads this
    {
      NoDuplicates(sent)
    }

    constructor ()
      ensures Valid() && sent == []
    {
      sent := [];
    }

    /**
     * `send_and_logging_error(message)`. `attempted` tells whether a chat send
     * was made: exactly when the text was not delivered before.
     */
    method Report(message: string, delivered: bool) returns (attempted: bool)
      requires Valid()
      modifies this
      ensures Valid()
      ensures attempted <==> message !in old(sent)
      ensures sent == AfterReport(old(sent), message, delivered)
    {
      if message in sent {
        return false;
      }
      attempted := true;
      if delivered {
        sent := sent + [message];
      }
    }
  }

  /** One call of the reporting routine: the text and how its send would end. */
  datatype Attempt = Attempt(message: string, delivered: bool)

  /** The list after a run of reports, one after another, starting from `sent`. */
  function Replay(sent: seq<string>, attempts: seq<Attempt>): (r: seq<string>)
    ensures sent <= r
    ensures NoDuplicates(sent) ==> NoDuplicates(r)
    decreases |attempts|
  {
    if attempts == [] then sent
    else Replay(AfterReport(sent, attempts[0].message, attempts[0].delivered), attempts[1..])
  }

  /** How many chat sends of the text `m` a run of reports makes. */
  function SendCalls(sent: seq<string>, attempts: seq<Attempt>, m: string): nat
    decreases |attempts|
  {
    if attempts == [] then 0
    else
      var a := attempts[0];
      (if a.message == m && m !in sent then 1 else 0)
      + SendCalls(AfterReport(sent, a.message, a.delivered), attempts[1..], m)
  }

  /** How many of those sends of `m` are delivered. */
  function Deliveries(sent: seq<string>, attempts: seq<Attempt>, m: string): nat
    decreases |attempts|
  {
    if attempts == [] then 0
    else
      var a := attempts[0];
      (if a.message == m && m !in sent && a.delivered then 1 else 0)
      + Deliveries(AfterReport(sent, a.message, a.delivered), attempts[1..], m)
  }

  /** Once a text is in the list, reporting it again never sends it. */
  lemma {:induction false} NoSendOnceDelivered(sent: seq<string>, attempts: seq<Attempt>, m: string)
    requires m in sent
    ensures SendCalls(sent, attempts, m) == 0
    decreases |attempts|
  {
    if attempts != [] {
      var a := attempts[0];
      NoSendOnceDelivered(AfterReport(sent, a.message, a.delivered), attempts[1..], m);
    }
  }

  /** Each error text reaches the chat at most once, and never when it already had. */
  lemma {:induction false} DeliveredAtMostOnce(sent: seq<string>, attempts: seq<Attempt>, m: string)
    ensures Deliveries(sent, attempts, m) <= (if m in sent then 0 else 1)
    decreases |attempts|
  {
    if attempts != [] {
      var a := attempts[0];
      var next := AfterReport(sent, a.message, a.delivered);
      DeliveredAtMostOnce(next, attempts[1..], m);
      if a.message == m && m !in sent && a.delivered {
        assert m in next;
      } else if m !in sent {
        assert m !in next;
      }
    }
  }

  /** A text ends up in the list exactly when it was there already or one of its sends was delivered. */
  lemma {:induction false} ReplayRemembers(sent: seq<string>, attempts: seq<Attempt>, m: string)
    ensures m in Replay(sent, attempts) <==> m in sent || Deliveries(sent, attempts, m) > 0
    decreases |attempts|
  {
    if attempts != [] {
      var a := attempts[0];
      var next := AfterReport(sent, a.message, a.delivered);
      ReplayRemembers(next, attempts[1..], m);
    }
  }

  /** A send that is not delivered leaves the text unrecorded, so the next report of it sends again. */
  lemma FailedSendIsRetried(m: string)
    ensures SendCalls([], [Attempt(m, false), Attempt(m, true)], m) == 2
    ensures Deliveries([], [Attempt(m, false), Attempt(m, true)], m) == 1
  {
    var attempts := [Attempt(m, false), Attempt(m, true)];
    assert AfterReport([], m, false) == [];
    assert attempts[1..] == [Attempt(m, true)];
    assert AfterReport([], m, true) == [m];
    assert [Attempt(m, true)][1..] == [];
    assert SendCalls([m], [], m) == 0 && Deliveries([m], [], m) == 0;
    assert SendCalls([], [Attempt(m, true)], m) == 1;
    assert Deliveries([], [Attempt(m, true)], m) == 1;
    assert SendCalls([], attempts, m) == 1 + SendCalls([], [Attempt(m, true)], m);
    assert Deliveries([], attempts, m) == Deliveries([], [Attempt(m, true)], m);
  }
}
