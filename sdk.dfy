/** The part of the Terraform plugin SDK and of the PagerDuty client that the
    resources rely on: the local state of one resource instance
    (schema.ResourceData), the errors the client returns, the replies of the
    remote service, and the protocol of resource.Retry. */
module Sdk {

  datatype Option<+T> = None | Some(value: T)

  /** An error as a resource sees it: one the PagerDuty client returns, which
      carries the HTTP status of the response, or any other error value. */
  datatype Error = ApiError(status: int, message: string) | Failure(message: string)

  /** isErrCode(err, code): the error is a client error with that HTTP status. */
  predicate IsErrCode(e: Error, code: int) {
    e.ApiError? && e.status == code
  }

  /** A value, or the error that took its place (Go's `(value, error)` pair). */
  datatype Result<+T> = Ok(value: T) | Fail(err: Error)

  /** The remote service as seen by one retried client call: `reply(k)` is what
      it answers to attempt k (the first attempt is 0), and `retries` is how
      many attempts after the first the retry window leaves room for. */
  datatype Oracle<T> = Oracle(reply: nat -> T, retries: nat)

  /** A snapshot of a resource instance: its ID and its string attributes. */
  datatype State = State(id: string, attrs: map<string, string>)

  /** d.Get(key) for a string attribute: the zero value "" when it is unset. */
  function Lookup(attrs: map<string, string>, key: string): string {
    if key in attrs then attrs[key] else ""
  }

  /** schema.ResourceData: the ID and the attributes of one resource instance,
      which the resource functions update in place. An unset attribute reads as
      "", and d.GetOk(key) succeeds exactly when Get(key) != "". */
  class ResourceData {
    var id: string
    var attrs: map<string, string>

    constructor (id: string, attrs: map<string, string>)
      ensures this.id == id && this.attrs == attrs
    {
      this.id := id;
      this.attrs := attrs;
    }

    function Snapshot(): State
      reads this
    {
      State(id, attrs)
    }

    function Get(key: string): string
      reads this
    {
      Lookup(attrs, key)
    }

    method Set(key: string, value: string)
      modifies this
      ensures id == old(id) && attrs == old(attrs)[key := value]
    {
      attrs := attrs[key := value];
    }

    method SetId(v: string)
      modifies this
      ensures id == v && attrs == old(attrs)
    {
      id := v;
    }
  }

  /** What an error callback (such as genError or handleNotFoundError) answers:
      the error to go on retrying with, or None to end the read successfully,
      and the ID it leaves on the resource. */
  datatype Handling = Handling(err: Option<Error>, id: string)

  /** An error callback, given the client's error and the resource's ID. */
  type Callback = (Error, string) -> Handling

  /** What one attempt of a resource.Retry loop returns: nil,
      RetryableError(err) or NonRetryableError(err). */
  datatype Step = Done | Retryable(err: Error) | NonRetryable(err: Error)

  /** resource.Retry makes another attempt only after a retryable error, and
      only while the window has room for one. */
  predicate Continues(step: Step, left: nat) {
    step.Retryable? && left > 0
  }

  /** What resource.Retry returns once it stops after `step`: nil after
      success, otherwise the error of that last attempt. */
  function Outcome(step: Step): Option<Error> {
    if step.Done? then None else Some(step.err)
  }

  /** One attempt: what it returns and the state it leaves. */
  datatype Attempt = Attempt(step: Step, state: State)

  /** A whole operation: the error it returns (None for nil), the state it
      leaves and the client calls it issued, in order. */
  datatype Run<C> = Run(err: Option<Error>, state: State, calls: seq<C>)

  function Prepend<C>(c: C, r: Run<C>): Run<C> {
    r.(calls := [c] + r.calls)
  }

  /** The run `r` preceded by the calls `done` already issued. */
  function After<C>(done: seq<C>, r: Run<C>): Run<C> {
    r.(calls := done + r.calls)
  }

  lemma AfterPrepend<C>(done: seq<C>, c: C, r: Run<C>)
    ensures After(done, Prepend(c, r)) == After(done + [c], r)
  {
    assert done + ([c] + r.calls) == (done + [c]) + r.calls;
  }
}
