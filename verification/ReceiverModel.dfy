/**
 The receiver window as a value and its operations as functions of that value. `Recv` is cut where it
 can block: `rest` holds what is left to push of the segment at the tail.
 */
module ReceiverModel {
  import opened Basics

  datatype Busy =
    | Idle                                          // no Recv in progress
    | Draining(seqN: u16, rest: Option<bytes>)       // Recv of `seqN` holds the lock; its ack is still due

  datatype Receiver = Receiver(app: bytes, recved: map<u16, bytes>, tailSeq: u16, busy: Busy, closed: bool)

  function InitialReceiver(): Receiver {
    Receiver([], map[], 0, Idle, false)
  }

  /** What `legalSeqN` decides: `seqN` is one of the `WINDOW` numbers that start at the tail. */
  predicate Legal(tailSeq: u16, seqN: u16) {
    Dist(tailSeq, seqN) < WINDOW
  }

  /** `recv`: keep the segment, then start to drain. */
  function Store(r: Receiver, seqN: u16, bs: bytes): Receiver {
    r.(recved := r.recved[seqN := bs], busy := Draining(seqN, None))
  }

  /** Take up the segment at the tail. */
  function StartPush(r: Receiver): Receiver
    requires r.busy.Draining? && r.tailSeq in r.recved
  {
    r.(busy := r.busy.(rest := Some(r.recved[r.tailSeq])))
  }

  /** How much of `rest` one call of `bq.push` takes. */
  function ChunkSize(app: bytes, rest: bytes): nat
    requires |app| <= BUFFER_SIZE
  {
    Min(BUFFER_SIZE - |app|, |rest|)
  }

  function PushPart(r: Receiver): Receiver
    requires r.busy.Draining? && r.busy.rest.Some? && |r.app| <= BUFFER_SIZE
  {
    var rest := r.busy.rest.value;
    var k := ChunkSize(r.app, rest);
    r.(app := r.app + rest[..k], busy := r.busy.(rest := Some(rest[k..])))
  }

  /** The tail segment is in the queue: forget it and slide. */
  function Slide(r: Receiver): Receiver
    requires r.busy.Draining?
  {
    r.(recved := r.recved - {r.tailSeq}, tailSeq := Inc(r.tailSeq), busy := r.busy.(rest := None))
  }

  function EndRecv(r: Receiver): Receiver {
    r.(busy := Idle)
  }

  /** What a read of `n` bytes takes from the queue. */
  function Take(r: Receiver, n: nat): bytes {
    r.app[..Min(n, |r.app|)]
  }

  function AfterRead(r: Receiver, n: nat): Receiver {
    r.(app := r.app[Min(n, |r.app|)..])
  }
}
