/** The watcher's deduplicating buffer of consumed messages and its flush into
    the FIFO shared with the worker (watcher.py, `_buffer`, `message_processing`
    and `buffer_processing`). */
module Buffer {

  /** One buffered message: the routing key and the decoded body text. Two
      deliveries with the same key and text are the same entry. */
  datatype Job = Job(key: string, body: string)

  /** `_buffer_threshold_length`: the buffer is flushed once it holds more entries. */
  const ThresholdLength: nat := 2

  /** `_buffer_threshold_time`: seconds between two timer-driven flushes. */
  const ThresholdTime: nat := 2

  /** The buffer and the queue it drains into. */
  datatype Pending = Pending(buffer: set<Job>, queue: seq<Job>)

  /** The order in which repeated `set.pop()` hands out the entries of `b`.
      Python leaves that order unspecified, so this picks an arbitrary element
      each time; everything proved about it holds for every order. */
  ghost function Enumerate(b: set<Job>): (r: seq<Job>)
    ensures |r| == |b|
    ensures multiset(r) == multiset(b)
    ensures forall j :: j in r <==> j in b
  {
    if b == {} then []
    else
      var x :| x in b;
      var rest := Enumerate(b - {x});
      assert b == (b - {x}) + {x};
      assert multiset(b) == multiset(b - {x}) + multiset{x};
      [x] + rest
  }

  /** `buffer_processing`: pop every buffered entry and put it on the queue.
      The buffer is left empty; the result is the new queue. */
  ghost function Flush(buffer: set<Job>, queue: seq<Job>): (q: seq<Job>)
    ensures |q| == |queue| + |buffer|
    ensures q[..|queue|] == queue
    ensures multiset(q[|queue|..]) == multiset(buffer)
    ensures buffer == {} ==> q == queue
  {
    var q := queue + Enumerate(buffer);
    assert q[|queue|..] == Enumerate(buffer);
    q
  }

  /** The successful path of `message_processing` for a non-empty body: insert
      the entry, and flush the whole buffer once it exceeds the threshold. */
  ghost function Add(p: Pending, job: Job): (r: Pending)
    ensures |r.buffer| <= ThresholdLength
    ensures |r.queue| >= |p.queue| && r.queue[..|p.queue|] == p.queue
    ensures |p.buffer + {job}| <= ThresholdLength ==> r == Pending(p.buffer + {job}, p.queue)
    ensures |p.buffer + {job}| > ThresholdLength ==>
              r.buffer == {} && multiset(r.queue[|p.queue|..]) == multiset(p.buffer + {job})
    ensures job in r.buffer || job in r.queue[|p.queue|..]
  {
    var b := p.buffer + {job};
    if |b| > ThresholdLength then
      var q := Flush(b, p.queue);
      assert job in multiset(q[|p.queue|..]);
      Pending({}, q)
    else Pending(b, p.queue)
  }

  /** Every entry counted once in the buffer and once per occurrence in the queue. */
  ghost function Held(p: Pending): multiset<Job>
  {
    multiset(p.buffer) + multiset(p.queue)
  }

  /** Flushing moves entries without losing or duplicating any, and keeps the
      queue's existing contents in front. */
  lemma FlushConserves(buffer: set<Job>, queue: seq<Job>)
    ensures multiset(Flush(buffer, queue)) == multiset(buffer) + multiset(queue)
  {
    var q := Flush(buffer, queue);
    assert q == q[..|queue|] + q[|queue|..];
  }

  /** Conservation across `Add`: what is held afterwards is what was held
      before plus the new entry, unless that entry was already buffered. */
  lemma AddConserves(p: Pending, job: Job)
    ensures Held(Add(p, job)) == Held(p) + (if job in p.buffer then multiset{} else multiset{job})
  {
    var b := p.buffer + {job};
    if job in p.buffer {
      assert b == p.buffer;
    } else {
      assert multiset(b) == multiset(p.buffer) + multiset{job};
    }
    if |b| > ThresholdLength {
      FlushConserves(b, p.queue);
    }
  }

  /** Adding the same entry twice before a flush leaves a single entry. */
  lemma AddTwiceBeforeFlush(p: Pending, job: Job)
    requires |p.buffer + {job}| <= ThresholdLength
    ensures Add(Add(p, job), job) == Add(p, job)
  {
    assert p.buffer + {job} + {job} == p.buffer + {job};
  }

  /** Starting from an empty buffer, three distinct entries trigger exactly one
      flush, on the third, which puts all three on the queue once each. */
  lemma ThirdDistinctEntryFlushes(queue: seq<Job>, a: Job, b: Job, c: Job)
    requires a != b && b != c && a != c
    ensures Add(Pending({}, queue), a) == Pending({a}, queue)
    ensures Add(Add(Pending({}, queue), a), b) == Pending({a, b}, queue)
    ensures var r := Add(Add(Add(Pending({}, queue), a), b), c);
            r.buffer == {} && r.queue[..|queue|] == queue &&
            multiset(r.queue[|queue|..]) == multiset{a, b, c}
  {
    assert |{a, b}| == 2;
    assert |{a, b} + {c}| == 3;
    assert multiset({a, b} + {c}) == multiset{a, b, c};
  }
}
