// Places in the tenant's event log, and the order the relay reads them in
// (apps/api/src/events/repositories/outbox.repository.ts).

module LogOrder {

  datatype Option<+T> = None | Some(value: T)

  /** Where an event stands: the id of the transaction that wrote it, then its own id. */
  datatype Position = Position(txn: nat, id: nat)

  /** The start of the log, before every event: no transaction has id 0. */
  const LOG_START := Position(0, 0)

  /** The row comparison `("txn", "id") < ("txn", "id")`. */
  predicate Before(a: Position, b: Position) {
    a.txn < b.txn || (a.txn == b.txn && a.id < b.id)
  }

  ghost predicate Ascending(s: seq<Position>) {
    forall i, j :: 0 <= i < j < |s| ==> Before(s[i], s[j])
  }

  /** The last place of a batch, or where it started when it is empty. */
  function LastOr(s: seq<Position>, start: Position): Position {
    if s == [] then start else s[|s| - 1]
  }

  lemma AscendingAppend(s: seq<Position>, t: seq<Position>)
    requires Ascending(s) && Ascending(t)
    requires forall a, b :: a in s && b in t ==> Before(a, b)
    ensures Ascending(s + t)
  {
  }

  /** Every batch in order, end to end. */
  function Flatten(batches: seq<seq<Position>>): seq<Position> {
    if batches == [] then [] else batches[0] + Flatten(batches[1..])
  }

  lemma {:induction false} FlattenAppend(batches: seq<seq<Position>>, last: seq<Position>)
    ensures Flatten(batches + [last]) == Flatten(batches) + last
  {
    if batches == [] {
      assert Flatten([last]) == last + Flatten([]) == last;
    } else {
      FlattenAppend(batches[1..], last);
      assert (batches + [last])[1..] == batches[1..] + [last];
    }
  }
}
