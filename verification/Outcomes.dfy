/** What one attempt makes of the item and of the queue, field by field. */
module Outcomes {
  import opened Common
  import opened FileSystem
  import opened Transit
  import opened Envelope
  import opened Items
  import opened Queue
  import opened QueueLaws
  import opened Watcher
  import opened Processor
  import opened ItemRoundTrip

  lemma EncryptNotes(v: Vault, c: Cipher, on: bool, w: World, it: ItemRec, path: string, f: Effort)
    ensures var r := EncryptProcess(v, c, on, w, it, path, f);
              && r.item == it.(checksum := r.item.checksum, checksumPath := r.item.checksumPath)
              && (!on ==> r.item == it)
              && (on && r.ok && it.source in w.files ==>
                    r.item.checksum == c.hash(w.files[it.source]) && r.item.checksumPath == path)
  {
  }

  /** The strategy changes nothing about the item but the checksum it notes. */
  lemma StrategyNotes(p: Setup, w: World, it: ItemRec, f: Effort)
    ensures var r := Strategy(p, w, it, f);
            var path := ChecksumPath(it.dest, it.source);
              && r.item == it.(checksum := r.item.checksum, checksumPath := r.item.checksumPath)
              && (!it.operation.Encrypt? || !p.calculateChecksum ==> r.item == it)
              && (it.operation.Encrypt? && p.calculateChecksum && r.ok && it.source in w.files ==>
                    r.item.checksum == p.cipher.hash(w.files[it.source]) && r.item.checksumPath == path)
  {
    if it.operation.Encrypt? {
      EncryptNotes(p.vault, p.cipher, p.calculateChecksum, w, it, ChecksumPath(it.dest, it.source), f);
    }
  }

  /** A completed item: one attempt more, its times, no error, its checksum; the queue stays as it is. */
  lemma Completes(p: Setup, s: Settings, w: World, q: QueueState, it: ItemRec, f: Effort)
    requires ProcessSpec(p, s, w, q, it, f).item.status == Completed
    ensures var z := ProcessSpec(p, s, w, q, it, f);
              && z.q == q
              && z.item == it.(status := Completed, attempts := it.attempts + 1, lastAttempt := f.start,
                               completedAt := f.finish, error := "",
                               checksum := z.item.checksum, checksumPath := z.item.checksumPath)
              && (it.operation.Encrypt? && p.calculateChecksum && it.source in w.files ==>
                    && z.item.checksum == p.cipher.hash(w.files[it.source])
                    && z.item.checksumPath == ChecksumPath(it.dest, it.source))
  {
    var began := AsProcessing(it, f.start);
    var r := Strategy(p, w, began, f);
    CompletedExactly(p, s, w, q, it, f);
    StrategyNotes(p, w, began, f);
    SuccessIs(p, r.world, q, r.item, f);
  }

  lemma SuccessIs(p: Setup, w: World, q: QueueState, it: ItemRec, f: Effort)
    ensures var z := AfterSuccess(p, w, q, it, f);
              z.q == q && z.item == it.(status := Completed, completedAt := f.finish, error := "")
  {
  }

  lemma FailureIs(p: Setup, s: Settings, w: World, q: QueueState, it: ItemRec, f: Effort)
    ensures var z := AfterFailure(p, s, w, q, it, f);
            var r := RequeueSpec(s, q, it, f.err, f.finish);
              z.q == r.q && z.item == r.item
  {
  }

  /**
   Any other: one attempt more, the error, and the retry time; it is at the end of the queue exactly if
   it has attempts left, and dead otherwise.
   */
  lemma FailsAndWaits(p: Setup, s: Settings, w: World, q: QueueState, it: ItemRec, f: Effort)
    requires 0 < s.base && 0 < s.max && ProcessSpec(p, s, w, q, it, f).item.status != Completed
    ensures var z := ProcessSpec(p, s, w, q, it, f);
            var n := it.attempts + 1;
            var left := s.maxRetries < 0 || n < s.maxRetries;
              && z.item == it.(status := if left then Failed else Dlq, attempts := n, lastAttempt := f.start,
                               error := f.err, nextRetry := f.finish + Min(s.base * Pow2(n), s.max),
                               checksum := z.item.checksum, checksumPath := z.item.checksumPath)
              && ItemsOf(z.q) == ItemsOf(q) + (if left then [z.item] else [])
  {
    var r := Strategy(p, w, AsProcessing(it, f.start), f);
    CompletedExactly(p, s, w, q, it, f);
    StrategyNotes(p, w, AsProcessing(it, f.start), f);
    FailureIs(p, s, r.world, q, r.item, f);
    RequeueSchedules(s, q, r.item, f.err, f.finish);
  }
}
