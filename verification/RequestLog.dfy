/** What clients observe: the sequence of successful answers and record purges, and the
    idempotency law it obeys. */
module RequestLog {
  import opened Amounts
  import opened Store

  datatype Answer = Answer(hash: string, response: Response)

  datatype Item =
    | Accepted(slot: Slot, answer: Answer)
    | Replayed(slot: Slot, answer: Answer)
    | Purged(slots: set<Slot>)
  {
    /** A successful answer for this key. */
    predicate Answers(s: Slot) { !Purged? && slot == s }
    predicate Forgets(s: Slot) { Purged? && s in slots }
  }

  /** The answer on record for a key after a log. */
  function Live(log: seq<Item>, s: Slot): Option<Answer> {
    if log == [] then None
    else
      var last := log[|log| - 1];
      if last.Accepted? && last.slot == s then Some(last.answer)
      else if last.Forgets(s) then None
      else Live(log[..|log| - 1], s)
  }

  /** An item is legitimate in the state the log before it leads to. */
  predicate Legal(before: seq<Item>, item: Item) {
    match item
    case Accepted(s, _) => Live(before, s).None?
    case Replayed(s, answer) => Live(before, s) == Some(answer)
    case Purged(slots) => forall s :: s in slots ==> Live(before, s).Some?
  }

  ghost predicate WellFormed(log: seq<Item>) {
    forall i | 0 <= i < |log| :: Legal(log[..i], log[i])
  }

  lemma Extend(log: seq<Item>, item: Item)
    requires WellFormed(log) && Legal(log, item)
    ensures WellFormed(log + [item])
  {
    var log' := log + [item];
    forall i | 0 <= i < |log'| ensures Legal(log'[..i], log'[i]) {
      assert log'[..i] == log[..i];
      if i == |log| { assert log[..i] == log; }
    }
  }

  /** The record stays what it was as long as no purge removes it. */
  lemma {:induction false} LivePersists(log: seq<Item>, i: nat, j: nat, s: Slot)
    requires WellFormed(log) && i < j <= |log| && log[i].Answers(s)
    requires forall m :: i < m < j ==> !log[m].Forgets(s)
    ensures Live(log[..j], s) == Some(log[i].answer)
  {
    assert log[..j][..j - 1] == log[..j - 1];
    if j == i + 1 {
      assert Legal(log[..i], log[i]);
    } else {
      LivePersists(log, i, j - 1, s);
      assert Legal(log[..j - 1], log[j - 1]);
    }
  }

  /** Agreement: without a purge of that key in between, two successes for a key carry the
      same fingerprint and response, and the later one posted nothing. */
  lemma Agreement(log: seq<Item>, i: nat, j: nat, s: Slot)
    requires WellFormed(log) && i < j < |log| && log[i].Answers(s) && log[j].Answers(s)
    requires forall m :: i < m < j ==> !log[m].Forgets(s)
    ensures log[j] == Replayed(s, log[i].answer)
  {
    LivePersists(log, i, j, s);
    assert Legal(log[..j], log[j]);
  }

  function Acceptances(log: seq<Item>, s: Slot): nat {
    if log == [] then 0
    else
      var last := log[|log| - 1];
      Acceptances(log[..|log| - 1], s) + if last.Accepted? && last.slot == s then 1 else 0
  }

  function Purges(log: seq<Item>, s: Slot): nat {
    if log == [] then 0
    else Purges(log[..|log| - 1], s) + if log[|log| - 1].Forgets(s) then 1 else 0
  }

  /** At most once per purge, exactly: a key has been accepted once for each purge that
      removed its record, plus once if a record is still there. */
  lemma {:induction false} OncePerPurge(log: seq<Item>, s: Slot)
    requires WellFormed(log)
    ensures Acceptances(log, s) == Purges(log, s) + if Live(log, s).Some? then 1 else 0
  {
    if log != [] {
      var n := |log| - 1;
      forall i | 0 <= i < n ensures Legal(log[..n][..i], log[..n][i]) {
        assert log[..n][..i] == log[..i];
        assert Legal(log[..i], log[i]);
      }
      OncePerPurge(log[..n], s);
      assert Legal(log[..n], log[n]);
    }
  }

  /** Transactions accepted, in order. */
  function Transactions(log: seq<Item>): seq<TransactionId> {
    if log == [] then []
    else
      var last := log[|log| - 1];
      Transactions(log[..|log| - 1]) +
      if last.Accepted? && last.answer.response.EntryPosted? then [last.answer.response.transaction] else []
  }
}
