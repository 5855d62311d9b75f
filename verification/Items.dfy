/** Work items: their values, the status transitions, and the mutable objects that carry them. */
module Items {

  datatype Operation = Encrypt | Decrypt | Other

  datatype Status = Pending | Processing | Completed | Failed | Dlq

  /** The value of an item. Times are integers on one clock. */
  datatype ItemRec = ItemRec(
    id: string, operation: Operation,
    source: string, dest: string, keyPath: string, checksumPath: string,
    status: Status, attempts: nat,
    lastAttempt: int, nextRetry: int, error: string,
    createdAt: int, completedAt: int,
    fileSize: nat, checksum: string)

  function NewItem(id: string, operation: Operation, source: string, dest: string, now: int): ItemRec
  {
    ItemRec(id, operation, source, dest, "", "", Pending, 0, 0, 0, "", now, 0, 0, "")
  }

  predicate ShouldRetry(it: ItemRec, maxRetries: int)
  {
    maxRetries < 0 || it.attempts < maxRetries
  }

  function AsProcessing(it: ItemRec, now: int): ItemRec
  {
    it.(status := Processing, attempts := it.attempts + 1, lastAttempt := now)
  }

  function AsCompleted(it: ItemRec, now: int): ItemRec
  {
    it.(status := Completed, completedAt := now, error := "")
  }

  function AsFailed(it: ItemRec, err: string, delay: int, now: int): ItemRec
  {
    it.(status := Failed, error := err, nextRetry := now + delay)
  }

  function AsDlq(it: ItemRec): ItemRec { it.(status := Dlq) }

  class Item {
    const id: string
    const operation: Operation
    const source: string
    var dest: string
    var keyPath: string
    var checksumPath: string
    var status: Status
    var attempts: nat
    var lastAttempt: int
    var nextRetry: int
    var error: string
    var createdAt: int
    var completedAt: int
    var fileSize: nat
    var checksum: string

    function View(): ItemRec
      reads this
    {
      ItemRec(id, operation, source, dest, keyPath, checksumPath, status, attempts, lastAttempt, nextRetry,
              error, createdAt, completedAt, fileSize, checksum)
    }

    constructor (r: ItemRec)
      ensures View() == r
    {
      id, operation, source, dest, keyPath := r.id, r.operation, r.source, r.dest, r.keyPath;
      checksumPath, status, attempts := r.checksumPath, r.status, r.attempts;
      lastAttempt, nextRetry, error := r.lastAttempt, r.nextRetry, r.error;
      createdAt, completedAt, fileSize, checksum := r.createdAt, r.completedAt, r.fileSize, r.checksum;
    }

    method MarkProcessing(now: int)
      modifies this
      ensures View() == AsProcessing(old(View()), now)
      ensures status == Processing && attempts == old(attempts) + 1 && lastAttempt == now
    {
      status := Processing;
      attempts := attempts + 1;
      lastAttempt := now;
    }

    method MarkCompleted(now: int)
      modifies this
      ensures View() == AsCompleted(old(View()), now)
      ensures status == Completed && completedAt == now && error == ""
    {
      status := Completed;
      completedAt := now;
      error := "";
    }

    method MarkFailed(err: string, delay: int, now: int)
      modifies this
      ensures View() == AsFailed(old(View()), err, delay, now)
      ensures status == Failed && error == err && nextRetry == now + delay
    {
      status := Failed;
      error := err;
      nextRetry := now + delay;
    }

    method MarkDlq()
      modifies this
      ensures View() == AsDlq(old(View()))
    {
      status := Dlq;
    }
  }
}
