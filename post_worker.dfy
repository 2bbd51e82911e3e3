/** `PostWorker.addPostToDb`: the queue job that writes a post to the
    database. The job carries the key and the post; the database write is
    a parameter (`None` when it resolves, the error when it rejects), and
    what the worker does is recorded, in order, as events on the job. */
module PostWorker {
  import opened Wrappers

  /** What the worker does that another party can observe: the call to
      `postService.addPostToDb`, `job.progress(n)`, and `done(error,
      result)`, where `None` is `null` or an absent argument. */
  datatype Event<V> =
    | AddToDb(key: string, value: V)
    | Progress(percent: nat)
    | Done(error: Option<string>, result: Option<V>)

  /** The events of one run, for a database write that succeeds
      (`dbError == None`) or rejects. */
  function Trace<V>(key: string, value: V, dbError: Option<string>): (t: seq<Event<V>>)
    ensures |t| >= 2 && t[0] == AddToDb(key, value) && t[|t| - 1].Done?
  {
    if dbError.None? then [AddToDb(key, value), Progress(100), Done(None, Some(value))]
    else [AddToDb(key, value), Done(dbError, None)]
  }

  /** The number of `done` calls in a list of events. */
  function DoneCount<V>(events: seq<Event<V>>): nat {
    if events == [] then 0 else (if events[0].Done? then 1 else 0) + DoneCount(events[1..])
  }

  /** The number of database writes in a list of events. */
  function WriteCount<V>(events: seq<Event<V>>): nat {
    if events == [] then 0 else (if events[0].AddToDb? then 1 else 0) + WriteCount(events[1..])
  }

  /** Every run writes once and calls `done` exactly once, as its last
      step. Progress is reported, at 100, exactly when the write
      succeeded, and then before `done`; `done` gets `null` and the post
      on success, the error and no result on failure. */
  lemma TraceProtocol<V>(key: string, value: V, dbError: Option<string>)
    ensures WriteCount(Trace(key, value, dbError)) == 1
    ensures DoneCount(Trace(key, value, dbError)) == 1
    ensures forall i :: 0 <= i < |Trace(key, value, dbError)| - 1 ==> !Trace(key, value, dbError)[i].Done?
    ensures Trace(key, value, dbError)[|Trace(key, value, dbError)| - 1]
      == (if dbError.None? then Done(None, Some(value)) else Done(dbError, None))
    ensures (exists i :: 0 <= i < |Trace(key, value, dbError)| && Trace(key, value, dbError)[i] == Progress(100))
      <==> dbError.None?
  {
    var t := Trace(key, value, dbError);
    if dbError.None? {
      assert t[1] == Progress(100);
      assert t[1..][1..][1..] == [];
      assert WriteCount(t[1..][1..][1..]) == 0 && DoneCount(t[1..][1..][1..]) == 0;
      assert DoneCount(t[1..][1..]) == 1 && WriteCount(t[1..][1..]) == 0;
      assert DoneCount(t[1..]) == 1 && WriteCount(t[1..]) == 0;
    } else {
      assert t[1..][1..] == [];
      assert WriteCount(t[1..][1..]) == 0 && DoneCount(t[1..][1..]) == 0;
      assert DoneCount(t[1..]) == 1 && WriteCount(t[1..]) == 0;
    }
  }

  /** A queued job: its data, its progress and what has happened to it. */
  class Job<V> {
    const key: string
    const value: V
    var progress: nat
    var events: seq<Event<V>>

    constructor (key: string, value: V)
      ensures this.key == key && this.value == value
      ensures progress == 0 && events == []
    {
      this.key := key;
      this.value := value;
      progress := 0;
      events := [];
    }
  }

  class PostWorker {
    constructor () {}

    /** `addPostToDb`: one run appends exactly `Trace` to the job's events;
        the progress is 100 after a successful write and untouched after
        a failed one. */
    method AddPostToDb<V>(job: Job<V>, dbError: Option<string>)
      modifies job
      ensures job.events == old(job.events) + Trace(job.key, job.value, dbError)
      ensures job.progress == (if dbError.None? then 100 else old(job.progress))
    {
      var key, value := job.key, job.value;
      job.events := job.events + [AddToDb(key, value)];
      if dbError.Some? {
        job.events := job.events + [Done(dbError, None)];
        return;
      }
      job.progress := 100;
      job.events := job.events + [Progress(100)];
      job.events := job.events + [Done(None, Some(value))];
    }
  }
}
