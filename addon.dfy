/** The pagerduty_addon resource: a full-page add-on is installed once (no
    retry), read back with a retried fetch driven by an error callback,
    updated and deleted with one call each. */
module Addon {
  import opened Sdk

  const FullPageAddon := "full_page_addon"

  /** pagerduty.Addon. */
  datatype AddonBody = AddonBody(id: string, name: string, src: string, addonType: string)

  /** The client requests this resource issues. */
  datatype Call =
    | InstallAddon(body: AddonBody)
    | GetAddon(id: string)
    | UpdateAddon(id: string, body: AddonBody)
    | DeleteAddon(id: string)

  /** The attributes a successful read writes. */
  const FetchedKeys: set<string> := {"name", "src"}

  /** buildAddonStruct: copies `name` and `src`; the type is always a full-page add-on. */
  function Build(attrs: map<string, string>): (r: AddonBody)
    ensures r.name == Lookup(attrs, "name") && r.src == Lookup(attrs, "src")
    ensures r.addonType == FullPageAddon && r.id == ""
  {
    AddonBody("", Lookup(attrs, "name"), Lookup(attrs, "src"), FullPageAddon)
  }

  /** The write-back of a successful read: `name` and `src` take the remote
      values and nothing else changes. */
  function WriteBack(attrs: map<string, string>, a: AddonBody): (r: map<string, string>)
    ensures Lookup(r, "name") == a.name && Lookup(r, "src") == a.src
    ensures r - FetchedKeys == attrs - FetchedKeys
  {
    attrs["name" := a.name]["src" := a.src]
  }

  /** One attempt of the read loop: on a client error the callback decides
      (its error is retried, None ends the loop with no write); on success the
      remote add-on is written back. */
  function FetchAttempt(reply: Result<AddonBody>, cb: Callback, s: State): Attempt {
    match reply
    case Fail(e) =>
      var h := cb(e, s.id);
      Attempt(if h.err.Some? then Retryable(h.err.value) else Done, s.(id := h.id))
    case Ok(a) =>
      Attempt(Done, s.(attrs := WriteBack(s.attrs, a)))
  }

  /** fetchPagerDutyAddon from attempt k on, with `left` further attempts
      allowed: each attempt gets the add-on under the current ID. */
  function FetchRun(cb: Callback, o: Oracle<Result<AddonBody>>, k: nat, left: nat, s: State): Run<Call>
    decreases left
  {
    var call := GetAddon(s.id);
    var a := FetchAttempt(o.reply(k), cb, s);
    if Continues(a.step, left) then Prepend(call, FetchRun(cb, o, k + 1, left - 1, a.state))
    else Run(Outcome(a.step), a.state, [call])
  }

  /** resourcePagerDutyAddonCreate: one install call, not retried; its error
      is returned with the ID unset. On success the ID is the installed
      add-on's, then the add-on is read back with the hard-fail callback. */
  function CreateRun(s: State, install: Result<AddonBody>, fetch: Oracle<Result<AddonBody>>,
                     genError: Callback): Run<Call>
  {
    var call := InstallAddon(Build(s.attrs));
    match install
    case Fail(e) => Run(Some(e), s, [call])
    case Ok(installed) => Prepend(call, FetchRun(genError, fetch, 0, fetch.retries, s.(id := installed.id)))
  }

  /** One attempt of the read on `d`: the body of the retried function. */
  method FetchOnce(d: ResourceData, cb: Callback, reply: Result<AddonBody>) returns (step: Step)
    modifies d
    ensures Attempt(step, d.Snapshot()) == FetchAttempt(reply, cb, old(d.Snapshot()))
  {
    match reply {
      case Fail(e) =>
        var h := cb(e, d.id);
        d.SetId(h.id);
        step := if h.err.Some? then Retryable(h.err.value) else Done;
      case Ok(a) =>
        d.Set("name", a.name);
        d.Set("src", a.src);
        step := Done;
    }
  }

  /** fetchPagerDutyAddon: the retried read. */
  method Fetch(d: ResourceData, cb: Callback, o: Oracle<Result<AddonBody>>)
    returns (err: Option<Error>, calls: seq<Call>)
    modifies d
    ensures Run(err, d.Snapshot(), calls) == FetchRun(cb, o, 0, o.retries, old(d.Snapshot()))
  {
    ghost var whole := FetchRun(cb, o, 0, o.retries, d.Snapshot());
    var k := 0;
    calls := [];
    while true
      invariant k <= o.retries
      invariant After(calls, FetchRun(cb, o, k, o.retries - k, d.Snapshot())) == whole
      decreases o.retries - k
    {
      var call := GetAddon(d.id);
      var step := FetchOnce(d, cb, o.reply(k));
      if !Continues(step, o.retries - k) {
        err := Outcome(step);
        calls := calls + [call];
        return;
      }
      AfterPrepend(calls, call, FetchRun(cb, o, k + 1, o.retries - k - 1, d.Snapshot()));
      calls := calls + [call];
      k := k + 1;
    }
  }

  /** resourcePagerDutyAddonCreate. */
  method Create(d: ResourceData, install: Result<AddonBody>, fetch: Oracle<Result<AddonBody>>,
                genError: Callback)
    returns (err: Option<Error>, calls: seq<Call>)
    modifies d
    ensures Run(err, d.Snapshot(), calls) == CreateRun(old(d.Snapshot()), install, fetch, genError)
  {
    var body := Build(d.attrs);
    calls := [InstallAddon(body)];
    if install.Fail? {
      return Some(install.err), calls;
    }
    d.SetId(install.value.id);
    var fetchCalls;
    err, fetchCalls := Fetch(d, genError, fetch);
    calls := calls + fetchCalls;
  }

  /** resourcePagerDutyAddonRead: the retried read with the not-found callback. */
  method Read(d: ResourceData, handleNotFound: Callback, o: Oracle<Result<AddonBody>>)
    returns (err: Option<Error>, calls: seq<Call>)
    modifies d
    ensures Run(err, d.Snapshot(), calls) == FetchRun(handleNotFound, o, 0, o.retries, old(d.Snapshot()))
  {
    err, calls := Fetch(d, handleNotFound, o);
  }

  /** resourcePagerDutyAddonUpdate: one update call carrying the built
      add-on; its error is returned as it is and the local state is never
      written. */
  method Update(d: ResourceData, reply: Option<Error>) returns (err: Option<Error>, calls: seq<Call>)
    ensures calls == [UpdateAddon(d.id, Build(d.attrs))]
    ensures err == reply
  {
    var body := Build(d.attrs);
    calls := [UpdateAddon(d.id, body)];
    err := reply;
  }

  /** resourcePagerDutyAddonDelete: one delete call; its error is returned
      unchanged and leaves the ID as it was, success clears the ID. */
  method Delete(d: ResourceData, reply: Option<Error>) returns (err: Option<Error>, calls: seq<Call>)
    modifies d
    ensures calls == [DeleteAddon(old(d.id))]
    ensures err == reply
    ensures d.id == (if reply.Some? then old(d.id) else "")
    ensures d.attrs == old(d.attrs)
  {
    calls := [DeleteAddon(d.id)];
    if reply.Some? {
      return reply, calls;
    }
    d.SetId("");
    err := None;
  }

  // ---------------------------------------------------------------------
  // Properties

  /** After a read, the next update sends back what was read: building from
      the written-back state gives the remote name and source. In particular
      reading back exactly what was built changes nothing that is sent. */
  lemma RebuildAfterRead(attrs: map<string, string>, a: AddonBody)
    ensures Build(WriteBack(attrs, a)) == AddonBody("", a.name, a.src, FullPageAddon)
    ensures Build(WriteBack(attrs, Build(attrs))) == Build(attrs)
  {
  }

  /** A read changes no attribute other than `name` and `src`. */
  lemma {:induction false} FetchFrame(cb: Callback, o: Oracle<Result<AddonBody>>, k: nat, left: nat, s: State)
    ensures FetchRun(cb, o, k, left, s).state.attrs - FetchedKeys == s.attrs - FetchedKeys
    decreases left
  {
    var a := FetchAttempt(o.reply(k), cb, s);
    if Continues(a.step, left) {
      FetchFrame(cb, o, k + 1, left - 1, a.state);
    }
  }

  /** A read makes at least one and at most left + 1 attempts, and fails only
      after using all of them, each answered by a client error. */
  lemma {:induction false} FetchFailsOnlyWhenExhausted(cb: Callback, o: Oracle<Result<AddonBody>>,
                                                       k: nat, left: nat, s: State)
    ensures var r := FetchRun(cb, o, k, left, s);
      && 1 <= |r.calls| <= left + 1
      && (forall c :: c in r.calls ==> c.GetAddon?)
      && (r.err.Some? ==> |r.calls| == left + 1 && forall j :: k <= j <= k + left ==> o.reply(j).Fail?)
    decreases left
  {
    var a := FetchAttempt(o.reply(k), cb, s);
    if Continues(a.step, left) {
      FetchFailsOnlyWhenExhausted(cb, o, k + 1, left - 1, a.state);
    }
  }

  /** What a read leaves in the attributes. Failed attempts write nothing, so
      a failed read leaves them as they were, and a successful read leaves
      the write-back of its last reply, or nothing written when the callback
      swallowed that reply's error. */
  lemma {:induction false} FetchOutcome(cb: Callback, o: Oracle<Result<AddonBody>>, k: nat, left: nat, s: State)
    ensures var r := FetchRun(cb, o, k, left, s);
      var n := |r.calls|;
      && 1 <= n
      && (r.err.Some? ==> r.state.attrs == s.attrs)
      && (r.err.None? ==>
            match o.reply(k + n - 1)
            case Ok(a) => r.state.attrs == WriteBack(s.attrs, a)
            case Fail(_) => r.state.attrs == s.attrs)
    decreases left
  {
    var a := FetchAttempt(o.reply(k), cb, s);
    var r := FetchRun(cb, o, k, left, s);
    if Continues(a.step, left) {
      var rest := FetchRun(cb, o, k + 1, left - 1, a.state);
      FetchOutcome(cb, o, k + 1, left - 1, a.state);
      assert a.state.attrs == s.attrs;
      assert r.err == rest.err && r.state == rest.state && r.calls == [GetAddon(s.id)] + rest.calls;
      assert k + |r.calls| - 1 == (k + 1) + |rest.calls| - 1;
    } else {
      assert r == Run(Outcome(a.step), a.state, [GetAddon(s.id)]);
    }
  }

  /** A client error that the callback maps to nil ends the read at once,
      successfully, with only the callback's change to the ID. */
  lemma SwallowedErrorEndsFetch(cb: Callback, o: Oracle<Result<AddonBody>>, k: nat, left: nat, s: State)
    requires o.reply(k).Fail? && cb(o.reply(k).err, s.id).err.None?
    ensures FetchRun(cb, o, k, left, s) == Run(None, s.(id := cb(o.reply(k).err, s.id).id), [GetAddon(s.id)])
  {
  }

  /** Create is never retried: a failed install is the only call, its error
      is returned and the state is untouched. A successful install is the only
      install call; it sets the ID before the read-back, whose first call gets
      the new add-on and whose error Create returns. */
  lemma CreateOutcome(s: State, install: Result<AddonBody>, fetch: Oracle<Result<AddonBody>>,
                      genError: Callback)
    ensures var r := CreateRun(s, install, fetch, genError);
      && r.calls[0] == InstallAddon(Build(s.attrs))
      && (install.Fail? ==> r == Run(Some(install.err), s, [InstallAddon(Build(s.attrs))]))
      && (install.Ok? ==>
            && |r.calls| >= 2
            && r.calls[1] == GetAddon(install.value.id)
            && (forall i :: 1 <= i < |r.calls| ==> r.calls[i].GetAddon?)
            && r.err == FetchRun(genError, fetch, 0, fetch.retries, s.(id := install.value.id)).err
            && r.state.attrs - FetchedKeys == s.attrs - FetchedKeys)
  {
    if install.Ok? {
      FetchFailsOnlyWhenExhausted(genError, fetch, 0, fetch.retries, s.(id := install.value.id));
      FetchFrame(genError, fetch, 0, fetch.retries, s.(id := install.value.id));
    }
  }
}
