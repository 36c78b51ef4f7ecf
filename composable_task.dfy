/** The deferred, awaitable task base (src/globalApi/ComposableTask.ts). */
module ComposableTasks {
  import opened Common
  import opened JsValues

  const RUN_NOT_IMPLEMENTED: string := "ComposableTask - run is not implemented"

  /** How a promise ends up: fulfilled with a value, rejected with an error, or never settled. */
  datatype Settlement<+T> = Resolved(value: T) | Rejected(error: Error) | Pending

  /** The promise of an async body that returns a value or throws. */
  function Settle<T>(r: Result<T, Error>): (s: Settlement<T>)
    ensures r.Ok? ==> s == Resolved(r.value)
    ensures r.Err? ==> s == Rejected(r.error)
  {
    match r
    case Ok(v) => Resolved(v)
    case Err(e) => Rejected(e)
  }

  /** The base `run`: an async method that always throws. */
  function BaseRun<T>(): (s: Settlement<T>)
    ensures s.Rejected? && s.error == Thrown([Text(RUN_NOT_IMPLEMENTED)])
  {
    Rejected(Thrown([Text(RUN_NOT_IMPLEMENTED)]))
  }

  /**
   * The promise `then(onfulfilled)` returns: it awaits `run()` and hands the
   * value to `onfulfilled`; a rejected `run()` rejects it without calling
   * `onfulfilled`.
   */
  function Then<T>(run: Settlement<T>, onfulfilled: T -> Result<T, Error>): (s: Settlement<T>)
    ensures s.Pending? <==> run.Pending?
    ensures s.Resolved? <==> run.Resolved? && onfulfilled(run.value).Ok?
    ensures s.Resolved? ==> s.value == onfulfilled(run.value).value
    ensures run.Rejected? ==> s == Rejected(run.error)
    ensures run.Resolved? && onfulfilled(run.value).Err? ==> s == Rejected(onfulfilled(run.value).error)
  {
    match run
    case Pending => Pending
    case Rejected(e) => Rejected(e)
    case Resolved(value) => Settle(onfulfilled(value))
  }

  /**
   * `then` with an `onfulfilled` that may return a thenable: the promise `then`
   * returns adopts the settlement of whatever `onfulfilled` returns, which may
   * reject or never settle even though `run()` fulfilled.
   */
  function ThenAdopting<T>(run: Settlement<T>, onfulfilled: T -> Settlement<T>): (s: Settlement<T>)
    ensures run.Resolved? ==> s == onfulfilled(run.value)
    ensures run.Rejected? ==> s == Rejected(run.error)
    ensures run.Pending? ==> s == Pending
  {
    match run
    case Pending => Pending
    case Rejected(e) => Rejected(e)
    case Resolved(value) => onfulfilled(value)
  }

  /**
   * A callback returning a plain value (or throwing) is the special case
   * `Then` models; a callback returning a thenable that never settles leaves
   * `then`'s promise pending although `run()` fulfilled.
   */
  lemma ThenIsAdoptingPlainValues<T>(run: Settlement<T>, onfulfilled: T -> Result<T, Error>, value: T)
    ensures Then(run, onfulfilled) == ThenAdopting(run, (v: T) => Settle(onfulfilled(v)))
    ensures ThenAdopting(Resolved(value), (v: T) => Pending) == Pending
  {
  }

  /**
   * `await task` on a `ComposableTask`: the engine calls
   * `task.then(resolve, reject)`.  `then` takes only `onfulfilled`, so
   * `resolve` is called when `run()` fulfils, while `reject` is dropped: when
   * `run()` rejects, only the promise `then` returned rejects, nobody handles
   * it, and the awaiter is never settled.
   */
  function AwaitTask<T>(run: Settlement<T>): (s: Settlement<T>)
    ensures !s.Rejected?
    ensures s.Resolved? <==> run.Resolved?
    ensures s.Resolved? ==> s.value == run.value
  {
    var returned := Then(run, (value: T) => Ok(value));
    if returned.Resolved? then Resolved(returned.value) else Pending
  }

  /**
   * What awaiting a task evidently should do: `then` forwarding a rejection
   * to the awaiter's `reject`, so the awaiter settles exactly as `run()` does.
   */
  function AwaitTaskForwardingRejection<T>(run: Settlement<T>): (s: Settlement<T>)
    ensures s.Resolved? <==> run.Resolved?
    ensures s.Resolved? ==> s.value == run.value
    ensures s.Rejected? <==> run.Rejected?
  {
    match run
    case Resolved(value) => Resolved(value)
    case Rejected(e) => Rejected(e)
    case Pending => Pending
  }

  /** The promise returned by `then` on a task that keeps the base `run` always rejects. */
  lemma ThenOnBaseTaskRejects<T>(onfulfilled: T -> Result<T, Error>)
    ensures Then(BaseRun(), onfulfilled) == Rejected(Thrown([Text(RUN_NOT_IMPLEMENTED)]))
  {
  }

  /**
   * Awaiting a task whose `run()` rejects never settles: the base task, and
   * every task that fails, leaves its awaiter pending, while the promise
   * `then` returns carries the rejection.
   */
  lemma AwaitingFailingTaskNeverSettles<T>(run: Settlement<T>, onfulfilled: T -> Result<T, Error>)
    requires run.Rejected?
    ensures AwaitTask(run) == Pending
    ensures Then(run, onfulfilled) == Rejected(run.error)
    ensures AwaitTask(BaseRun<T>()) == Pending
  {
  }

  /** With the rejection forwarded, an awaiter of a failing task is rejected with `run()`'s error. */
  lemma IntendedAwaitForwardsRejection<T>(run: Settlement<T>)
    ensures AwaitTaskForwardingRejection(run) == run
    ensures AwaitTaskForwardingRejection(BaseRun<T>()) == Rejected(Thrown([Text(RUN_NOT_IMPLEMENTED)]))
  {
  }

  /**
   * `then` resolves to `onfulfilled` applied to `run`'s value, and when `run`
   * rejects its error propagates whatever `onfulfilled` is.
   */
  lemma ThenComposesRunAndOnFulfilled<T>(
    run: Settlement<T>, onfulfilled: T -> Result<T, Error>, other: T -> Result<T, Error>)
    ensures run.Resolved? ==> Then(run, onfulfilled) == Settle(onfulfilled(run.value))
    ensures run.Rejected? ==> Then(run, onfulfilled) == Rejected(run.error) == Then(run, other)
  {
  }

  /**
   * The parent a stage awaits (`ComposableTask | Promise`): a task, given by
   * how its `run()` settles, or a promise, given by how it settles.
   */
  datatype Parent<+P> = TaskParent(run: Settlement<P>) | PromiseParent(promise: Settlement<P>)

  /** `await this.parentTask`: a promise is awaited directly, a task through its `then`. */
  function AwaitParent<P>(parent: Parent<P>): (s: Settlement<P>)
    ensures parent.PromiseParent? ==> s == parent.promise
    ensures parent.TaskParent? ==> s == AwaitTask(parent.run)
    ensures s.Rejected? ==> parent.PromiseParent?
  {
    match parent
    case PromiseParent(promise) => promise
    case TaskParent(run) => AwaitTask(run)
  }
}
