/** The pagerduty_schedule data source: a retried listing of schedules by
    name (HTTP 429 is retried, every other error is fatal), then a scan for
    the first schedule whose name is exactly the one searched for. */
module Schedule {
  import opened Sdk

  /** The HTTP status that marks rate limiting, on which the listing is retried. */
  const RateLimitedStatus := 429

  /** pagerduty.Schedule, as far as the lookup uses it. */
  datatype ScheduleEntry = ScheduleEntry(id: string, name: string)

  /** The client request this data source issues: a listing with a query. */
  datatype Call = ListSchedules(query: string)

  /** The error when no listed schedule has exactly the searched name. */
  function NotFound(name: string): Error {
    Failure("Unable to locate any schedule with the name: " + name)
  }

  /** The index of the first schedule whose name equals `name` exactly (case
      and all; a name that merely contains it does not match), or None when
      there is none. */
  function FirstNamed(schedules: seq<ScheduleEntry>, name: string): (r: Option<nat>)
    ensures r.Some? ==>
      && r.value < |schedules|
      && schedules[r.value].name == name
      && forall j :: 0 <= j < r.value ==> schedules[j].name != name
    ensures r.None? ==> forall j :: 0 <= j < |schedules| ==> schedules[j].name != name
    decreases |schedules|
  {
    if schedules == [] then None
    else if schedules[0].name == name then Some(0)
    else
      match FirstNamed(schedules[1..], name)
      case None => None
      case Some(j) => Some(j + 1)
  }

  /** The scan of the listing: stops at the first exact match. */
  method FindSchedule(schedules: seq<ScheduleEntry>, name: string) returns (found: Option<nat>)
    ensures found == FirstNamed(schedules, name)
  {
    found := None;
    var i := 0;
    while i < |schedules|
      invariant 0 <= i <= |schedules|
      invariant forall j :: 0 <= j < i ==> schedules[j].name != name
    {
      if schedules[i].name == name {
        found := Some(i);
        break;
      }
      i := i + 1;
    }
  }

  /** One attempt: a listing error is retryable when it is a 429 and fatal
      otherwise; a listing without an exact match is fatal; the first exact
      match gives the ID and the `name` attribute. */
  function ScheduleAttempt(name: string, reply: Result<seq<ScheduleEntry>>, s: State): Attempt {
    match reply
    case Fail(e) =>
      Attempt(if IsErrCode(e, RateLimitedStatus) then Retryable(e) else NonRetryable(e), s)
    case Ok(schedules) =>
      match FirstNamed(schedules, name)
      case None => Attempt(NonRetryable(NotFound(name)), s)
      case Some(j) => Attempt(Done, State(schedules[j].id, s.attrs["name" := schedules[j].name]))
  }

  /** dataSourcePagerDutyScheduleRead from attempt k on, with `left` further
      attempts allowed. */
  function ScheduleRun(name: string, o: Oracle<Result<seq<ScheduleEntry>>>, k: nat, left: nat, s: State): Run<Call>
    decreases left
  {
    var a := ScheduleAttempt(name, o.reply(k), s);
    if Continues(a.step, left) then Prepend(ListSchedules(name), ScheduleRun(name, o, k + 1, left - 1, a.state))
    else Run(Outcome(a.step), a.state, [ListSchedules(name)])
  }

  /** One attempt of the lookup on `d`: the body of the retried function. */
  method ReadAttempt(d: ResourceData, searchName: string, reply: Result<seq<ScheduleEntry>>) returns (step: Step)
    modifies d
    ensures Attempt(step, d.Snapshot()) == ScheduleAttempt(searchName, reply, old(d.Snapshot()))
  {
    match reply {
      case Fail(e) =>
        step := if IsErrCode(e, RateLimitedStatus) then Retryable(e) else NonRetryable(e);
      case Ok(schedules) =>
        var found := FindSchedule(schedules, searchName);
        if found.None? {
          step := NonRetryable(NotFound(searchName));
        } else {
          d.SetId(schedules[found.value].id);
          d.Set("name", schedules[found.value].name);
          step := Done;
        }
    }
  }

  /** dataSourcePagerDutyScheduleRead. */
  method Read(d: ResourceData, o: Oracle<Result<seq<ScheduleEntry>>>)
    returns (err: Option<Error>, calls: seq<Call>)
    modifies d
    ensures Run(err, d.Snapshot(), calls) == ScheduleRun(Lookup(old(d.attrs), "name"), o, 0, o.retries, old(d.Snapshot()))
  {
    var searchName := d.Get("name");
    ghost var whole := ScheduleRun(searchName, o, 0, o.retries, d.Snapshot());
    var k := 0;
    calls := [];
    while true
      invariant k <= o.retries
      invariant After(calls, ScheduleRun(searchName, o, k, o.retries - k, d.Snapshot())) == whole
      decreases o.retries - k
    {
      var step := ReadAttempt(d, searchName, o.reply(k));
      if !Continues(step, o.retries - k) {
        err := Outcome(step);
        calls := calls + [ListSchedules(searchName)];
        return;
      }
      AfterPrepend(calls, ListSchedules(searchName), ScheduleRun(searchName, o, k + 1, o.retries - k - 1, d.Snapshot()));
      calls := calls + [ListSchedules(searchName)];
      k := k + 1;
    }
  }

  // ---------------------------------------------------------------------
  // Properties

  /** The retry loop of the lookup: every call lists with the searched name
      as query, every attempt before the last was rate limited, and the run
      returns what its last attempt returns, from the state it started in;
      a last attempt that is still rate limited used up the window. */
  lemma {:induction false} ScheduleLastAttempt(name: string, o: Oracle<Result<seq<ScheduleEntry>>>,
                                               k: nat, left: nat, s: State)
    ensures var r := ScheduleRun(name, o, k, left, s);
      var n := |r.calls|;
      var last := ScheduleAttempt(name, o.reply(k + n - 1), s);
      && 1 <= n <= left + 1
      && (forall c :: c in r.calls ==> c == ListSchedules(name))
      && (forall j :: k <= j < k + n - 1 ==> o.reply(j).Fail? && IsErrCode(o.reply(j).err, RateLimitedStatus))
      && r.err == Outcome(last.step) && r.state == last.state
      && (last.step.Retryable? ==> n == left + 1)
    decreases left
  {
    var a := ScheduleAttempt(name, o.reply(k), s);
    var r := ScheduleRun(name, o, k, left, s);
    if Continues(a.step, left) {
      var rest := ScheduleRun(name, o, k + 1, left - 1, a.state);
      ScheduleLastAttempt(name, o, k + 1, left - 1, a.state);
      assert a.state == s;
      assert r.err == rest.err && r.state == rest.state && r.calls == [ListSchedules(name)] + rest.calls;
      assert k + |r.calls| - 1 == (k + 1) + |rest.calls| - 1;
    } else {
      assert r == Run(Outcome(a.step), a.state, [ListSchedules(name)]);
    }
  }

  /** The lookup in full. Another listing error than 429 is returned at once,
      a 429 only when the window is used up; a listing without an exact match
      fails with an error naming the searched value; none of these changes
      the state. Success takes the first exact match of the last listing: the
      ID becomes its ID and `name` the searched name. */
  lemma ScheduleOutcome(name: string, o: Oracle<Result<seq<ScheduleEntry>>>, k: nat, left: nat, s: State)
    ensures var r := ScheduleRun(name, o, k, left, s);
      var n := |r.calls|;
      && 1 <= n <= left + 1
      && (forall c :: c in r.calls ==> c == ListSchedules(name))
      && (forall j :: k <= j < k + n - 1 ==> o.reply(j).Fail? && IsErrCode(o.reply(j).err, RateLimitedStatus))
      && match o.reply(k + n - 1)
         case Fail(e) =>
           r.err == Some(e) && r.state == s && (IsErrCode(e, RateLimitedStatus) ==> n == left + 1)
         case Ok(schedules) =>
           match FirstNamed(schedules, name)
           case None => r.err == Some(NotFound(name)) && r.state == s
           case Some(j) => r.err.None? && r.state == State(schedules[j].id, s.attrs["name" := name])
  {
    ScheduleLastAttempt(name, o, k, left, s);
  }

  /** A successful lookup leaves `name` equal to the searched name and the ID
      of a listed schedule with exactly that name. */
  lemma ScheduleSuccess(name: string, o: Oracle<Result<seq<ScheduleEntry>>>, k: nat, left: nat, s: State)
    requires ScheduleRun(name, o, k, left, s).err.None?
    ensures var r := ScheduleRun(name, o, k, left, s);
      && Lookup(r.state.attrs, "name") == name
      && exists j: nat :: && o.reply(j).Ok?
                          && FirstNamed(o.reply(j).value, name).Some?
                          && r.state.id == o.reply(j).value[FirstNamed(o.reply(j).value, name).value].id
  {
    ScheduleOutcome(name, o, k, left, s);
    var r := ScheduleRun(name, o, k, left, s);
    var last := k + |r.calls| - 1;
    assert o.reply(last).Ok?;
  }

  /** Searching "OnCallRotationA" among "OnCallRotationA" and
      "OnCallRotationAB" picks the first; a case variant listed first is
      passed over for the exact name after it. */
  lemma ExactNameScenario()
    ensures FirstNamed([ScheduleEntry("P1", "OnCallRotationA"), ScheduleEntry("P2", "OnCallRotationAB")],
                       "OnCallRotationA") == Some(0)
    ensures FirstNamed([ScheduleEntry("P1", "oncallrotationa"), ScheduleEntry("P2", "OnCallRotationA")],
                       "OnCallRotationA") == Some(1)
  {
  }

  /** The same scenario through the whole lookup: the first reply lists both
      schedules and the data source takes the ID of "OnCallRotationA". */
  lemma ExactNameLookupScenario(s: State, left: nat)
    ensures var listing := [ScheduleEntry("P1", "OnCallRotationA"), ScheduleEntry("P2", "OnCallRotationAB")];
      var r := ScheduleRun("OnCallRotationA", Oracle(_ => Ok(listing), left), 0, left, s);
      r.err.None? && r.state.id == "P1" && r.calls == [ListSchedules("OnCallRotationA")]
  {
  }
}
