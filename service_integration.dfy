/** The pagerduty_service_integration resource: how it builds the request from
    the local state, creates (retrying on HTTP 400), reads back (retrying
    through an error callback), updates, deletes and imports an integration
    of a PagerDuty service. */
module ServiceIntegration {
  import opened Sdk
  import opened Strings

  const ErrEmailIntegrationMustHaveEmail :=
    "integration_email attribute must be set for an integration type generic_email_inbound_integration"
  const ErrImportFormat :=
    "Error importing pagerduty_service_integration. Expecting an importation ID formed as '<service_id>.<integration_id>'"
  const GenericEmailType := "generic_email_inbound_integration"
  const DefaultType := "service_integration"
  /** The HTTP status on which creation is retried. */
  const RetriedCreateStatus := 400

  /** A reference to another PagerDuty object: its ID and its type. */
  datatype Reference = Reference(id: string, refType: string)

  /** pagerduty.Integration; the nullable Service and Vendor references are options. */
  datatype Integration = Integration(
    id: string,
    name: string,
    integrationType: string,
    service: Option<Reference>,
    vendor: Option<Reference>,
    integrationKey: string,
    integrationEmail: string,
    htmlUrl: string)

  /** The client requests this resource issues. */
  datatype Call =
    | GetIntegration(service: string, id: string)
    | CreateIntegration(service: string, body: Integration)
    | UpdateIntegration(service: string, id: string, body: Integration)
    | DeleteIntegration(service: string, id: string)

  /** The attributes a successful read may write. */
  const FetchedKeys: set<string> :=
    {"name", "type", "service", "vendor", "integration_key", "integration_email", "html_url"}

  /** The plan-time check (CustomizeDiff): a generic e-mail integration whose
      e-mail is empty is refused, unless that e-mail is not known yet. */
  function PlanCheck(integrationType: string, email: string, emailKnown: bool): (r: Option<Error>)
    ensures r.Some? <==> integrationType == GenericEmailType && email == "" && emailKnown
    ensures r.Some? ==> r.value == Failure(ErrEmailIntegrationMustHaveEmail)
  {
    if integrationType == GenericEmailType && email == "" && emailKnown then
      Some(Failure(ErrEmailIntegrationMustHaveEmail))
    else
      None
  }

  /** buildServiceIntegrationStruct: the request follows the local state. The
      type is "service_integration" unless `type` is set, the service reference
      names the `service` attribute, the vendor reference is there exactly when
      `vendor` is set, and key and e-mail are copied. It fails exactly when the
      resulting type is the generic e-mail type and the e-mail is empty. */
  function Build(attrs: map<string, string>): (r: Result<Integration>)
    ensures r.Fail? <==>
      (if Lookup(attrs, "type") != "" then Lookup(attrs, "type") else DefaultType) == GenericEmailType
      && Lookup(attrs, "integration_email") == ""
    ensures r.Fail? ==> r.err == Failure(ErrEmailIntegrationMustHaveEmail)
    ensures r.Ok? ==>
      && r.value.id == ""
      && r.value.name == Lookup(attrs, "name")
      && r.value.integrationType == (if Lookup(attrs, "type") != "" then Lookup(attrs, "type") else DefaultType)
      && r.value.service == Some(Reference(Lookup(attrs, "service"), "service"))
      && (r.value.vendor.Some? <==> Lookup(attrs, "vendor") != "")
      && (r.value.vendor.Some? ==> r.value.vendor.value == Reference(Lookup(attrs, "vendor"), "vendor"))
      && r.value.integrationKey == Lookup(attrs, "integration_key")
      && r.value.integrationEmail == Lookup(attrs, "integration_email")
      && r.value.htmlUrl == ""
  {
    var base := Integration("", Lookup(attrs, "name"), DefaultType,
                            Some(Reference(Lookup(attrs, "service"), "service")), None, "", "", "");
    var withKey := if Lookup(attrs, "integration_key") != ""
                   then base.(integrationKey := Lookup(attrs, "integration_key")) else base;
    var withEmail := if Lookup(attrs, "integration_email") != ""
                     then withKey.(integrationEmail := Lookup(attrs, "integration_email")) else withKey;
    var withType := if Lookup(attrs, "type") != ""
                    then withEmail.(integrationType := Lookup(attrs, "type")) else withEmail;
    var built := if Lookup(attrs, "vendor") != ""
                 then withType.(vendor := Some(Reference(Lookup(attrs, "vendor"), "vendor"))) else withType;
    if built.integrationType == GenericEmailType && built.integrationEmail == "" then
      Fail(Failure(ErrEmailIntegrationMustHaveEmail))
    else
      Ok(built)
  }

  /** d.Set(key, value) when `write` holds, nothing otherwise. */
  function SetWhen(attrs: map<string, string>, write: bool, key: string, value: string): map<string, string> {
    if write then attrs[key := value] else attrs
  }

  /** A conditional write of a fetched key leaves every other key as it was. */
  lemma SetWhenFrame(attrs: map<string, string>, write: bool, key: string, value: string)
    requires key in FetchedKeys
    ensures SetWhen(attrs, write, key, value) - FetchedKeys == attrs - FetchedKeys
  {
  }

  /** The first half of the write-back: `name` and `type` are always
      overwritten, `service` and `vendor` only when the remote reference is
      there. */
  function WriteReferences(attrs: map<string, string>, i: Integration): map<string, string> {
    var a := SetWhen(attrs, true, "name", i.name);
    var a := SetWhen(a, true, "type", i.integrationType);
    var a := SetWhen(a, i.service.Some?, "service", if i.service.Some? then i.service.value.id else "");
    SetWhen(a, i.vendor.Some?, "vendor", if i.vendor.Some? then i.vendor.value.id else "")
  }

  /** What the first half writes, and that it writes nothing else. */
  lemma WriteReferencesFacts(attrs: map<string, string>, i: Integration)
    ensures var r := WriteReferences(attrs, i);
      && Lookup(r, "name") == i.name && Lookup(r, "type") == i.integrationType
      && Lookup(r, "service") == (if i.service.Some? then i.service.value.id else Lookup(attrs, "service"))
      && Lookup(r, "vendor") == (if i.vendor.Some? then i.vendor.value.id else Lookup(attrs, "vendor"))
      && (forall k :: k !in {"name", "type", "service", "vendor"} ==> Lookup(r, k) == Lookup(attrs, k))
      && r - FetchedKeys == attrs - FetchedKeys
  {
    var a1 := SetWhen(attrs, true, "name", i.name);
    var a2 := SetWhen(a1, true, "type", i.integrationType);
    var a3 := SetWhen(a2, i.service.Some?, "service", if i.service.Some? then i.service.value.id else "");
    SetWhenFrame(attrs, true, "name", i.name);
    SetWhenFrame(a1, true, "type", i.integrationType);
    SetWhenFrame(a2, i.service.Some?, "service", if i.service.Some? then i.service.value.id else "");
    SetWhenFrame(a3, i.vendor.Some?, "vendor", if i.vendor.Some? then i.vendor.value.id else "");
  }

  /** The second half of the write-back: `integration_key`,
      `integration_email` and `html_url` only when the remote value is not
      empty. */
  function WriteValues(attrs: map<string, string>, i: Integration): map<string, string> {
    var a := SetWhen(attrs, i.integrationKey != "", "integration_key", i.integrationKey);
    var a := SetWhen(a, i.integrationEmail != "", "integration_email", i.integrationEmail);
    SetWhen(a, i.htmlUrl != "", "html_url", i.htmlUrl)
  }

  /** What the second half writes, and that it writes nothing else. */
  lemma WriteValuesFacts(attrs: map<string, string>, i: Integration)
    ensures var r := WriteValues(attrs, i);
      && Lookup(r, "integration_key") ==
           (if i.integrationKey != "" then i.integrationKey else Lookup(attrs, "integration_key"))
      && Lookup(r, "integration_email") ==
           (if i.integrationEmail != "" then i.integrationEmail else Lookup(attrs, "integration_email"))
      && Lookup(r, "html_url") == (if i.htmlUrl != "" then i.htmlUrl else Lookup(attrs, "html_url"))
      && (forall k :: k !in {"integration_key", "integration_email", "html_url"} ==> Lookup(r, k) == Lookup(attrs, k))
      && r - FetchedKeys == attrs - FetchedKeys
  {
    var a1 := SetWhen(attrs, i.integrationKey != "", "integration_key", i.integrationKey);
    var a2 := SetWhen(a1, i.integrationEmail != "", "integration_email", i.integrationEmail);
    SetWhenFrame(attrs, i.integrationKey != "", "integration_key", i.integrationKey);
    SetWhenFrame(a1, i.integrationEmail != "", "integration_email", i.integrationEmail);
    SetWhenFrame(a2, i.htmlUrl != "", "html_url", i.htmlUrl);
  }

  /** The write-back of a successful read: `name` and `type` are always
      overwritten, `service` and `vendor` only when the remote reference is
      there, `integration_key`, `integration_email` and `html_url` only when
      the remote value is not empty; no other attribute changes. */
  function WriteBack(attrs: map<string, string>, i: Integration): (r: map<string, string>)
    ensures Lookup(r, "name") == i.name && Lookup(r, "type") == i.integrationType
    ensures Lookup(r, "service") == (if i.service.Some? then i.service.value.id else Lookup(attrs, "service"))
    ensures Lookup(r, "vendor") == (if i.vendor.Some? then i.vendor.value.id else Lookup(attrs, "vendor"))
    ensures Lookup(r, "integration_key") ==
      (if i.integrationKey != "" then i.integrationKey else Lookup(attrs, "integration_key"))
    ensures Lookup(r, "integration_email") ==
      (if i.integrationEmail != "" then i.integrationEmail else Lookup(attrs, "integration_email"))
    ensures Lookup(r, "html_url") == (if i.htmlUrl != "" then i.htmlUrl else Lookup(attrs, "html_url"))
    ensures r - FetchedKeys == attrs - FetchedKeys
  {
    WriteReferencesFacts(attrs, i);
    WriteValuesFacts(WriteReferences(attrs, i), i);
    WriteValues(WriteReferences(attrs, i), i)
  }

  /** The attributes one reply of the read leaves: the write-back of a
      returned integration; an error writes nothing. */
  function Written(reply: Result<Integration>, attrs: map<string, string>): map<string, string> {
    match reply
    case Ok(i) => WriteBack(attrs, i)
    case Fail(_) => attrs
  }

  /** One attempt of the read loop: on a client error the callback decides
      (its error is retried, None ends the loop with no write); on success the
      remote integration is written back. */
  function FetchAttempt(reply: Result<Integration>, cb: Callback, s: State): Attempt {
    var attrs := Written(reply, s.attrs);
    match reply
    case Fail(e) =>
      var h := cb(e, s.id);
      Attempt(if h.err.Some? then Retryable(h.err.value) else Done, State(h.id, attrs))
    case Ok(_) =>
      Attempt(Done, s.(attrs := attrs))
  }

  /** fetchPagerDutyServiceIntegration from attempt k on, with `left` further
      attempts allowed: each attempt gets the integration of `service` (read
      once, before the loop) under the current ID. */
  function FetchRun(service: string, cb: Callback, o: Oracle<Result<Integration>>,
                    k: nat, left: nat, s: State): Run<Call>
    decreases left
  {
    var call := GetIntegration(service, s.id);
    var a := FetchAttempt(o.reply(k), cb, s);
    if Continues(a.step, left) then Prepend(call, FetchRun(service, cb, o, k + 1, left - 1, a.state))
    else Run(Outcome(a.step), a.state, [call])
  }

  /** One attempt of the create loop: HTTP 400 is retryable, any other error
      is not; a returned integration gives the resource its ID. */
  function CreateAttempt(reply: Result<Option<Integration>>, s: State): Attempt {
    match reply
    case Fail(e) =>
      Attempt(if IsErrCode(e, RetriedCreateStatus) then Retryable(e) else NonRetryable(e), s)
    case Ok(created) =>
      Attempt(Done, if created.Some? then s.(id := created.value.id) else s)
  }

  /** The create loop from attempt k on, with `left` further attempts allowed. */
  function CreateRetryRun(service: string, body: Integration, o: Oracle<Result<Option<Integration>>>,
                          k: nat, left: nat, s: State): Run<Call>
    decreases left
  {
    var call := CreateIntegration(service, body);
    var a := CreateAttempt(o.reply(k), s);
    if Continues(a.step, left) then Prepend(call, CreateRetryRun(service, body, o, k + 1, left - 1, a.state))
    else Run(Outcome(a.step), a.state, [call])
  }

  /** resourcePagerDutyServiceIntegrationCreate: build (failing before any
      call), run the create loop, and when it succeeds read back with the
      hard-fail callback. */
  function CreateRun(s: State, create: Oracle<Result<Option<Integration>>>,
                     fetch: Oracle<Result<Integration>>, genError: Callback): Run<Call>
  {
    match Build(s.attrs)
    case Fail(e) => Run(Some(e), s, [])
    case Ok(body) =>
      var c := CreateRetryRun(Lookup(s.attrs, "service"), body, create, 0, create.retries, s);
      if c.err.Some? then c
      else
        var f := FetchRun(Lookup(c.state.attrs, "service"), genError, fetch, 0, fetch.retries, c.state);
        Run(f.err, f.state, c.calls + f.calls)
  }

  /** Writes a fetched integration into `d`, field by field. */
  method ApplyFetched(d: ResourceData, i: Integration)
    modifies d
    ensures d.id == old(d.id) && d.attrs == WriteBack(old(d.attrs), i)
  {
    d.Set("name", i.name);
    d.Set("type", i.integrationType);
    if i.service.Some? {
      d.Set("service", i.service.value.id);
    }
    if i.vendor.Some? {
      d.Set("vendor", i.vendor.value.id);
    }
    if i.integrationKey != "" {
      d.Set("integration_key", i.integrationKey);
    }
    if i.integrationEmail != "" {
      d.Set("integration_email", i.integrationEmail);
    }
    if i.htmlUrl != "" {
      d.Set("html_url", i.htmlUrl);
    }
  }

  /** One attempt of the read on `d`: the body of the retried function. */
  method FetchOnce(d: ResourceData, cb: Callback, reply: Result<Integration>) returns (step: Step)
    modifies d
    ensures Attempt(step, d.Snapshot()) == FetchAttempt(reply, cb, old(d.Snapshot()))
  {
    match reply {
      case Fail(e) =>
        var h := cb(e, d.id);
        d.SetId(h.id);
        step := if h.err.Some? then Retryable(h.err.value) else Done;
      case Ok(i) =>
        ApplyFetched(d, i);
        step := Done;
    }
  }

  /** fetchPagerDutyServiceIntegration: the retried read. */
  method Fetch(d: ResourceData, cb: Callback, o: Oracle<Result<Integration>>)
    returns (err: Option<Error>, calls: seq<Call>)
    modifies d
    ensures Run(err, d.Snapshot(), calls) ==
            FetchRun(Lookup(old(d.attrs), "service"), cb, o, 0, o.retries, old(d.Snapshot()))
  {
    var service := d.Get("service");
    ghost var whole := FetchRun(service, cb, o, 0, o.retries, d.Snapshot());
    var k := 0;
    calls := [];
    while true
      invariant k <= o.retries
      invariant After(calls, FetchRun(service, cb, o, k, o.retries - k, d.Snapshot())) == whole
      decreases o.retries - k
    {
      var call := GetIntegration(service, d.id);
      var step := FetchOnce(d, cb, o.reply(k));
      if !Continues(step, o.retries - k) {
        err := Outcome(step);
        calls := calls + [call];
        return;
      }
      AfterPrepend(calls, call, FetchRun(service, cb, o, k + 1, o.retries - k - 1, d.Snapshot()));
      calls := calls + [call];
      k := k + 1;
    }
  }

  /** One attempt of the create loop: the body of the retried function. */
  method CreateOnce(d: ResourceData, reply: Result<Option<Integration>>) returns (step: Step)
    modifies d
    ensures Attempt(step, d.Snapshot()) == CreateAttempt(reply, old(d.Snapshot()))
  {
    match reply {
      case Fail(e) =>
        step := if IsErrCode(e, RetriedCreateStatus) then Retryable(e) else NonRetryable(e);
      case Ok(created) =>
        if created.Some? {
          d.SetId(created.value.id);
        }
        step := Done;
    }
  }

  /** The retried create call of resourcePagerDutyServiceIntegrationCreate. */
  method CreateWithRetry(d: ResourceData, service: string, body: Integration,
                         o: Oracle<Result<Option<Integration>>>)
    returns (err: Option<Error>, calls: seq<Call>)
    modifies d
    ensures Run(err, d.Snapshot(), calls) == CreateRetryRun(service, body, o, 0, o.retries, old(d.Snapshot()))
  {
    ghost var whole := CreateRetryRun(service, body, o, 0, o.retries, d.Snapshot());
    var k := 0;
    calls := [];
    while true
      invariant k <= o.retries
      invariant After(calls, CreateRetryRun(service, body, o, k, o.retries - k, d.Snapshot())) == whole
      decreases o.retries - k
    {
      var call := CreateIntegration(service, body);
      var step := CreateOnce(d, o.reply(k));
      if !Continues(step, o.retries - k) {
        err := Outcome(step);
        calls := calls + [call];
        return;
      }
      AfterPrepend(calls, call, CreateRetryRun(service, body, o, k + 1, o.retries - k - 1, d.Snapshot()));
      calls := calls + [call];
      k := k + 1;
    }
  }

  /** resourcePagerDutyServiceIntegrationCreate. */
  method Create(d: ResourceData, create: Oracle<Result<Option<Integration>>>,
                fetch: Oracle<Result<Integration>>, genError: Callback)
    returns (err: Option<Error>, calls: seq<Call>)
    modifies d
    ensures Run(err, d.Snapshot(), calls) == CreateRun(old(d.Snapshot()), create, fetch, genError)
  {
    var built := Build(d.attrs);
    if built.Fail? {
      return Some(built.err), [];
    }
    var service := d.Get("service");
    var retryErr;
    retryErr, calls := CreateWithRetry(d, service, built.value, create);
    if retryErr.Some? {
      return retryErr, calls;
    }
    CreateRetryOutcome(service, built.value, create, 0, create.retries, old(d.Snapshot()));
    var fetchCalls;
    err, fetchCalls := Fetch(d, genError, fetch);
    calls := calls + fetchCalls;
  }

  /** resourcePagerDutyServiceIntegrationRead: the retried read with the
      not-found callback. */
  method Read(d: ResourceData, handleNotFound: Callback, o: Oracle<Result<Integration>>)
    returns (err: Option<Error>, calls: seq<Call>)
    modifies d
    ensures Run(err, d.Snapshot(), calls) ==
            FetchRun(Lookup(old(d.attrs), "service"), handleNotFound, o, 0, o.retries, old(d.Snapshot()))
  {
    err, calls := Fetch(d, handleNotFound, o);
  }

  /** resourcePagerDutyServiceIntegrationUpdate: a build that fails returns its
      error before any call; otherwise one update call, whose error is
      returned as it is. The local state is never written. */
  method Update(d: ResourceData, reply: Option<Error>) returns (err: Option<Error>, calls: seq<Call>)
    ensures Build(d.attrs).Fail? ==> err == Some(Build(d.attrs).err) && calls == []
    ensures Build(d.attrs).Ok? ==>
      err == reply && calls == [UpdateIntegration(d.Get("service"), d.id, Build(d.attrs).value)]
  {
    var built := Build(d.attrs);
    if built.Fail? {
      return Some(built.err), [];
    }
    var service := d.Get("service");
    calls := [UpdateIntegration(service, d.id, built.value)];
    err := reply;
  }

  /** resourcePagerDutyServiceIntegrationDelete: one delete call; its error is
      returned unchanged and leaves the ID as it was, success clears the ID. */
  method Delete(d: ResourceData, reply: Option<Error>) returns (err: Option<Error>, calls: seq<Call>)
    modifies d
    ensures calls == [DeleteIntegration(Lookup(old(d.attrs), "service"), old(d.id))]
    ensures err == reply
    ensures d.id == (if reply.Some? then old(d.id) else "")
    ensures d.attrs == old(d.attrs)
  {
    var service := d.Get("service");
    calls := [DeleteIntegration(service, d.id)];
    if reply.Some? {
      return reply, calls;
    }
    d.SetId("");
    err := None;
  }

  /** resourcePagerDutyServiceIntegrationImport: the ID is split on "."; any
      other number of parts than two is refused with the expected format and
      no call. Otherwise the integration is looked up once; on success the ID
      becomes the second part and `service` the first. */
  method Import(d: ResourceData, reply: Option<Error>) returns (err: Option<Error>, calls: seq<Call>)
    modifies d
    ensures var ids := Split(old(d.id), '.');
      if |ids| != 2 then
        err == Some(Failure(ErrImportFormat)) && calls == [] && d.Snapshot() == old(d.Snapshot())
      else
        && calls == [GetIntegration(ids[0], ids[1])]
        && err == reply
        && d.Snapshot() == (if reply.Some? then old(d.Snapshot())
                            else State(ids[1], old(d.attrs)["service" := ids[0]]))
  {
    var ids := Split(d.id, '.');
    if |ids| != 2 {
      return Some(Failure(ErrImportFormat)), [];
    }
    var sid, id := ids[0], ids[1];
    calls := [GetIntegration(sid, id)];
    if reply.Some? {
      return reply, calls;
    }
    d.SetId(id);
    d.Set("service", sid);
    err := None;
  }

  // ---------------------------------------------------------------------
  // Properties

  /** With the e-mail known, the plan-time check refuses exactly the states
      that Build refuses. */
  lemma PlanCheckAgreesWithBuild(attrs: map<string, string>)
    ensures PlanCheck(Lookup(attrs, "type"), Lookup(attrs, "integration_email"), true).Some?
            <==> Build(attrs).Fail?
  {
  }

  /** Reading back exactly what was built leaves a state that builds the same
      request again: a read after a create or update is a fixed point. */
  lemma RebuildAfterEcho(attrs: map<string, string>)
    requires Build(attrs).Ok?
    ensures Build(WriteBack(attrs, Build(attrs).value)) == Build(attrs)
  {
  }

  /** A read changes no attribute outside the seven it writes, whatever the
      replies and however many attempts it makes. */
  lemma {:induction false} FetchFrame(service: string, cb: Callback, o: Oracle<Result<Integration>>,
                                      k: nat, left: nat, s: State)
    ensures FetchRun(service, cb, o, k, left, s).state.attrs - FetchedKeys == s.attrs - FetchedKeys
    decreases left
  {
    var a := FetchAttempt(o.reply(k), cb, s);
    assert a.state.attrs - FetchedKeys == s.attrs - FetchedKeys;
    if Continues(a.step, left) {
      FetchFrame(service, cb, o, k + 1, left - 1, a.state);
    }
  }

  /** Every call of a read gets an integration of `service`; a read makes
      at least one and at most left + 1 attempts, and it fails only after
      using all of them, each answered by a client error. */
  lemma {:induction false} FetchFailsOnlyWhenExhausted(service: string, cb: Callback,
                                                       o: Oracle<Result<Integration>>,
                                                       k: nat, left: nat, s: State)
    ensures var r := FetchRun(service, cb, o, k, left, s);
      && 1 <= |r.calls| <= left + 1
      && (forall c :: c in r.calls ==> c.GetIntegration? && c.service == service)
      && (r.err.Some? ==> |r.calls| == left + 1 && forall j :: k <= j <= k + left ==> o.reply(j).Fail?)
    decreases left
  {
    var a := FetchAttempt(o.reply(k), cb, s);
    var r := FetchRun(service, cb, o, k, left, s);
    if Continues(a.step, left) {
      var rest := FetchRun(service, cb, o, k + 1, left - 1, a.state);
      FetchFailsOnlyWhenExhausted(service, cb, o, k + 1, left - 1, a.state);
      assert o.reply(k).Fail?;
      assert r.err == rest.err && r.calls == [GetIntegration(service, s.id)] + rest.calls;
    } else {
      assert r == Run(Outcome(a.step), a.state, [GetIntegration(service, s.id)]);
      assert r.err.Some? ==> a.step.Retryable? && left == 0 && o.reply(k).Fail?;
    }
  }

  /** An attempt that is retried was answered by an error and wrote nothing;
      the read goes on from the next reply. */
  lemma FetchRetried(service: string, cb: Callback, o: Oracle<Result<Integration>>,
                     k: nat, left: nat, s: State)
    requires Continues(FetchAttempt(o.reply(k), cb, s).step, left)
    ensures o.reply(k).Fail? && FetchAttempt(o.reply(k), cb, s).state.attrs == s.attrs
    ensures FetchRun(service, cb, o, k, left, s) ==
      Prepend(GetIntegration(service, s.id), FetchRun(service, cb, o, k + 1, left - 1, FetchAttempt(o.reply(k), cb, s).state))
  {
  }

  /** A read leaves the attributes its last reply leaves, from those it
      started with: earlier attempts were errors and wrote nothing, and a
      failed read ends on an error too. */
  lemma {:induction false} FetchLastAttempt(service: string, cb: Callback, o: Oracle<Result<Integration>>,
                                            k: nat, left: nat, s: State)
    ensures var r := FetchRun(service, cb, o, k, left, s);
      && 1 <= |r.calls|
      && (r.err.Some? ==> o.reply(k + |r.calls| - 1).Fail?)
      && r.state.attrs == Written(o.reply(k + |r.calls| - 1), s.attrs)
    decreases left
  {
    var a := FetchAttempt(o.reply(k), cb, s);
    if Continues(a.step, left) {
      FetchRetried(service, cb, o, k, left, s);
      FetchLastAttempt(service, cb, o, k + 1, left - 1, a.state);
    }
  }

  /** What a read leaves in the attributes: a failed read leaves them as they
      were; a successful read leaves the write-back of its last reply, or
      nothing written when the callback swallowed that reply's error. */
  lemma FetchOutcome(service: string, cb: Callback, o: Oracle<Result<Integration>>,
                     k: nat, left: nat, s: State)
    ensures var r := FetchRun(service, cb, o, k, left, s);
      var n := |r.calls|;
      && 1 <= n
      && (r.err.Some? ==> r.state.attrs == s.attrs)
      && (r.err.None? ==>
            match o.reply(k + n - 1)
            case Ok(i) => r.state.attrs == WriteBack(s.attrs, i)
            case Fail(_) => r.state.attrs == s.attrs)
  {
    FetchLastAttempt(service, cb, o, k, left, s);
  }

  /** A client error that the callback maps to nil ends the read at once,
      successfully, with only the callback's change to the ID. */
  lemma SwallowedErrorEndsFetch(service: string, cb: Callback, o: Oracle<Result<Integration>>,
                                k: nat, left: nat, s: State)
    requires o.reply(k).Fail? && cb(o.reply(k).err, s.id).err.None?
    ensures FetchRun(service, cb, o, k, left, s) ==
            Run(None, s.(id := cb(o.reply(k).err, s.id).id), [GetIntegration(service, s.id)])
  {
  }

  /** With a callback that never swallows an error (genError), a read whose
      every reply is an error fails and writes no attribute: a create whose
      read-back keeps failing reports it. */
  lemma {:induction false} HardFailSurfaces(service: string, cb: Callback, o: Oracle<Result<Integration>>,
                                            k: nat, left: nat, s: State)
    requires forall e, id :: cb(e, id).err.Some?
    requires forall j :: k <= j <= k + left ==> o.reply(j).Fail?
    ensures FetchRun(service, cb, o, k, left, s).err.Some?
    ensures FetchRun(service, cb, o, k, left, s).state.attrs == s.attrs
    decreases left
  {
    var a := FetchAttempt(o.reply(k), cb, s);
    assert a.step.Retryable?;
    if left > 0 {
      HardFailSurfaces(service, cb, o, k + 1, left - 1, a.state);
    }
  }

  /** The create loop in full: every attempt before the last got HTTP 400; the
      last attempt decides. Another error is returned at once, a 400 only when
      the window is used up, and neither sets the ID; success sets the ID to
      that of the returned integration, if any. */
  lemma {:induction false} CreateRetryOutcome(service: string, body: Integration,
                                              o: Oracle<Result<Option<Integration>>>,
                                              k: nat, left: nat, s: State)
    ensures var r := CreateRetryRun(service, body, o, k, left, s);
      var n := |r.calls|;
      && 1 <= n <= left + 1
      && (forall c :: c in r.calls ==> c == CreateIntegration(service, body))
      && r.state.attrs == s.attrs
      && (forall j :: k <= j < k + n - 1 ==> o.reply(j).Fail? && IsErrCode(o.reply(j).err, RetriedCreateStatus))
      && match o.reply(k + n - 1)
         case Fail(e) =>
           r.err == Some(e) && r.state.id == s.id && (IsErrCode(e, RetriedCreateStatus) ==> n == left + 1)
         case Ok(created) =>
           r.err.None? && r.state.id == (if created.Some? then created.value.id else s.id)
    decreases left
  {
    var a := CreateAttempt(o.reply(k), s);
    if Continues(a.step, left) {
      CreateRetryOutcome(service, body, o, k + 1, left - 1, a.state);
    }
  }

  /** Create issues no call exactly when the build fails, and then returns
      the build's error with the state untouched. */
  lemma CreateRejectsBeforeAnyCall(s: State, create: Oracle<Result<Option<Integration>>>,
                                   fetch: Oracle<Result<Integration>>, genError: Callback)
    ensures var r := CreateRun(s, create, fetch, genError);
      (r.calls == [] <==> Build(s.attrs).Fail?)
      && (Build(s.attrs).Fail? ==> r == Run(Some(Failure(ErrEmailIntegrationMustHaveEmail)), s, []))
  {
  }

  /** When the create loop fails, Create returns that error and never reads
      back; when it succeeds, Create returns the read-back's error, so a
      failed read after a successful create is reported. */
  lemma CreateOutcome(s: State, create: Oracle<Result<Option<Integration>>>,
                      fetch: Oracle<Result<Integration>>, genError: Callback)
    requires Build(s.attrs).Ok?
    ensures var body := Build(s.attrs).value;
      var c := CreateRetryRun(Lookup(s.attrs, "service"), body, create, 0, create.retries, s);
      var r := CreateRun(s, create, fetch, genError);
      && (c.err.Some? ==> r == c && forall x :: x in r.calls ==> !x.GetIntegration?)
      && (c.err.None? ==>
            r.err == FetchRun(Lookup(s.attrs, "service"), genError, fetch, 0, fetch.retries, c.state).err
            && r.calls[..|c.calls|] == c.calls)
  {
    var body := Build(s.attrs).value;
    CreateRetryOutcome(Lookup(s.attrs, "service"), body, create, 0, create.retries, s);
  }

  /** An import ID `<service_id>.<integration_id>` whose parts hold no "." is
      accepted, and the parts come back unchanged. */
  lemma ImportIdRoundTrip(serviceId: string, integrationId: string)
    requires '.' !in serviceId && '.' !in integrationId
    ensures Split(serviceId + "." + integrationId, '.') == [serviceId, integrationId]
  {
    SplitPair(serviceId, integrationId, '.');
  }

  /** An import ID is accepted exactly when it holds one ".". */
  lemma ImportAcceptsOneDot(raw: string)
    ensures |Split(raw, '.')| == 2 <==> Count(raw, '.') == 1
  {
  }
}
