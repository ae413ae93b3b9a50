/** The bounded queue between the stream and its spill writer. Every method is one stretch of
    code between two awaits, so it runs without interruption. */
module ChunkQueue {
  import opened Utf8

  type Chunk = Bytes

  /** Who waits for a parked promise. */
  type Party = nat

  const CAPACITY: nat := 16

  datatype Item = Value(chunk: Chunk) | Done

  datatype Queue = Queue(chunks: seq<Chunk>, readers: seq<Party>, writers: seq<Party>, closed: bool)

  const EMPTY: Queue := Queue([], [], [], false)

  // ---------------------------------------------------------------- specification

  datatype PushOutcome = WriterParked | Dropped | HandedTo(reader: Party) | Buffered

  /** One pass over the guard of `push`: park while full, otherwise deliver, buffer or drop. */
  function Pushed(q: Queue, writer: Party, chunk: Chunk): (Queue, PushOutcome) {
    if !q.closed && |q.chunks| >= CAPACITY then (q.(writers := q.writers + [writer]), WriterParked)
    else if q.closed then (q, Dropped)
    else if q.readers != [] then (q.(readers := q.readers[1..]), HandedTo(q.readers[0]))
    else (q.(chunks := q.chunks + [chunk]), Buffered)
  }

  datatype NextOutcome = Got(item: Item) | ReaderParked

  /** A read frees one slot for the longest-parked writer before it looks at what it got. */
  function Taken(q: Queue, reader: Party): (Queue, NextOutcome, seq<Party>) {
    var woken := if q.writers == [] then [] else q.writers[..1];
    var rest := q.(writers := if q.writers == [] then [] else q.writers[1..]);
    if q.chunks != [] then (rest.(chunks := q.chunks[1..]), Got(Value(q.chunks[0])), woken)
    else if q.closed then (rest, Got(Done), woken)
    else (rest.(readers := q.readers + [reader]), ReaderParked, woken)
  }

  /** Closing wakes everyone; what is buffered stays readable. */
  function Closed(q: Queue): Queue {
    if q.closed then q else q.(readers := [], writers := [], closed := true)
  }

  // ---------------------------------------------------------------- implementation

  class ChunkQueue {
    var chunks: seq<Chunk>
    var readers: seq<Party>
    var writers: seq<Party>
    var closed: bool

    function View(): Queue
      reads this
    {
      Queue(chunks, readers, writers, closed)
    }

    constructor ()
      ensures View() == EMPTY
    {
      chunks, readers, writers, closed := [], [], [], false;
    }

    method Push(writer: Party, chunk: Chunk) returns (outcome: PushOutcome)
      modifies this
      ensures (View(), outcome) == Pushed(old(View()), writer, chunk)
    {
      if !closed && |chunks| >= CAPACITY {
        writers := writers + [writer];
        return WriterParked;
      }
      if closed {
        return Dropped;
      }
      if readers != [] {
        var reader := readers[0];
        readers := readers[1..];
        return HandedTo(reader);
      }
      chunks := chunks + [chunk];
      return Buffered;
    }

    method Next(reader: Party) returns (outcome: NextOutcome, woken: seq<Party>)
      modifies this
      ensures (View(), outcome, woken) == Taken(old(View()), reader)
    {
      var taken := [];
      if chunks != [] {
        taken, chunks := chunks[..1], chunks[1..];
      }
      woken := [];
      if writers != [] {
        woken, writers := writers[..1], writers[1..];
      }
      if taken != [] {
        return Got(Value(taken[0])), woken;
      }
      if closed {
        return Got(Done), woken;
      }
      readers := readers + [reader];
      return ReaderParked, woken;
    }

    method Close() returns (wokenWriters: seq<Party>, wokenReaders: seq<Party>)
      modifies this
      ensures View() == Closed(old(View()))
      ensures wokenWriters == if old(closed) then [] else old(writers)
      ensures wokenReaders == if old(closed) then [] else old(readers)
    {
      if closed {
        return [], [];
      }
      closed := true;
      wokenWriters, writers := writers, [];
      wokenReaders, readers := readers, [];
    }
  }
}
