/** The record handler of `porkbundns/dns/record_handler.py`: create, update and
    delete requests sent through one `call_api`, which strips the credentials
    from the payload dict it is given once the post has returned.  The handler
    keeps one `base_payload` dict with the credentials; create and update copy
    it into a fresh dict, while delete posts that very dict. */
module SharedPayload {
  import opened Dicts
  import opened Effects
  import opened Batches

  function CreateUrl(endpoint: string, domain: string): string {
    endpoint + "/create/" + domain
  }

  function EditUrl(endpoint: string, domain: string, recordType: string, recordName: string): string {
    endpoint + "/editByNameType/" + domain + "/" + recordType + "/" + recordName
  }

  function DeleteUrl(endpoint: string, domain: string, recordType: string, recordName: string): string {
    endpoint + "/deleteByNameType/" + domain + "/" + recordType + "/" + recordName
  }

  /** What `call_api` hands back to its caller: the response (only its status
      code is modelled), `None` after a connection failure, or an exception. */
  datatype CallOutcome = Response(code: int) | NoResponse | Raise(exc: Exception)

  /** What `call_api` does to the payload dict it is given (`after`), what it
      logs and how it returns, once the request has been posted. */
  datatype CallEffect = CallEffect(after: seq<Item>, logged: seq<LogEvent>, outcome: CallOutcome)

  /** `call_api` on a payload dict holding `payload`, when the post answers
      `reply`.  A connection failure is caught, and the unstripped payload is
      handed to `logger.error` as its argument.  Otherwise the two credentials are popped, each pop raising `KeyError`
      (which nothing catches) when its key is missing; then the stripped payload
      is logged, at error level unless the status is 200. */
  function CallApiEffect(payload: seq<Item>, reply: Reply): CallEffect {
    match reply
    case ConnectionFailure =>
      CallEffect(payload, [LogEvent(Error, payload)], NoResponse)
    case Status(code) =>
      if !HasKey(payload, "apikey") then CallEffect(payload, [], Raise(KeyError))
      else
        var p1 := Remove(payload, "apikey");
        if !HasKey(p1, "secretapikey") then CallEffect(p1, [], Raise(KeyError))
        else
          var p2 := Remove(p1, "secretapikey");
          CallEffect(p2, [LogEvent(if code != 200 then Error else Info, p2)], Response(code))
  }

  /** The handler state one call leaves behind is `base_payload`'s entries. */
  type Outcome = Effect<seq<Item>>

  /** A call that posted `request` and then went through `call_api`. */
  function Posted(base: seq<Item>, request: Request, e: CallEffect): Outcome {
    Effect(base, [request], e.logged, if e.outcome.Raise? then Raised(e.outcome.exc) else Normal)
  }

  /** The payload `create_record` builds: the dict display (whose three literal
      keys are distinct) updated with `base_payload`. */
  function CreatePayload(base: seq<Item>, recordName: string, recordType: string, recordContent: string): seq<Item> {
    Merge([("type", recordType), ("name", recordName), ("content", recordContent)], base)
  }

  /** The payload `update_record` builds. */
  function UpdatePayload(base: seq<Item>, recordContent: string): seq<Item> {
    Merge([("content", recordContent)], base)
  }

  /** `create_record(record_name, record_type, record_content)`: the payload is
      a fresh dict, so `base_payload` is left as it was. */
  function CreateStep(endpoint: string, domain: string, base: seq<Item>,
                      recordName: string, recordType: string, recordContent: string, reply: Reply): Outcome
  {
    var payload := CreatePayload(base, recordName, recordType, recordContent);
    Posted(base, Request(CreateUrl(endpoint, domain), payload), CallApiEffect(payload, reply))
  }

  /** `update_record(record_content, record_type, record_name)`, parameters in
      the order the method declares them. */
  function UpdateStep(endpoint: string, domain: string, base: seq<Item>,
                      recordContent: string, recordType: string, recordName: string, reply: Reply): Outcome
  {
    var payload := UpdatePayload(base, recordContent);
    Posted(base, Request(EditUrl(endpoint, domain, recordType, recordName), payload), CallApiEffect(payload, reply))
  }

  /** `delete_record(record_name, record_type)`: the payload IS `base_payload`,
      so whatever `call_api` pops from it is gone from `base_payload`. */
  function DeleteStep(endpoint: string, domain: string, base: seq<Item>,
                      recordName: string, recordType: string, reply: Reply): Outcome
  {
    var e := CallApiEffect(base, reply);
    Posted(e.after, Request(DeleteUrl(endpoint, domain, recordType, recordName), base), e)
  }

  /** The three actions `change_records` knows. */
  datatype Op = Update | Create | Delete

  /** The `if`/`elif` chain of `change_records` on the action string. */
  function ParseAction(action: string): (r: Option<Op>)
    ensures r.Some? <==> action in {"update", "create", "delete"}
    ensures r == Some(Update) <==> action == "update"
    ensures r == Some(Create) <==> action == "create"
    ensures r == Some(Delete) <==> action == "delete"
  {
    if action == "update" then Some(Update)
    else if action == "create" then Some(Create)
    else if action == "delete" then Some(Delete)
    else None
  }

  /** The call `change_records` makes for one row, with the arguments as its
      call sites pass them: `update_record(host, type, answer)`,
      `create_record(host, type, answer)`, `delete_record(host, type)`. */
  function RowStep(endpoint: string, domain: string, base: seq<Item>, op: Op, row: Row, reply: Reply): Outcome {
    match op
    case Update => UpdateStep(endpoint, domain, base, row.host, row.rtype, row.answer, reply)
    case Create => CreateStep(endpoint, domain, base, row.host, row.rtype, row.answer, reply)
    case Delete => DeleteStep(endpoint, domain, base, row.host, row.rtype, reply)
  }

  function RowCall(endpoint: string, domain: string, op: Op): (seq<Item>, Row, Reply) -> Outcome {
    (base, row, reply) => RowStep(endpoint, domain, base, op, row, reply)
  }

  /** `call` makes, on every handler state, row and reply, the call `RowStep`
      describes.  The loops below are stated for any such `call`, so that
      their proofs never need to look inside a row's call. */
  ghost predicate CallsRowStep(call: (seq<Item>, Row, Reply) -> Outcome, endpoint: string, domain: string, op: Op) {
    forall b, r, p {:trigger RowStep(endpoint, domain, b, op, r, p)} :: call(b, r, p) == RowStep(endpoint, domain, b, op, r, p)
  }

  /** `RowCall` is such a call. */
  lemma RowCallIs(endpoint: string, domain: string, op: Op)
    ensures CallsRowStep(RowCall(endpoint, domain, op), endpoint, domain, op)
  {
  }

  /** `change_records(domain_db, action)`: a missing file and an unknown action
      are each logged once and nothing is posted; otherwise the action's list
      comprehension runs over the rows. */
  function ChangeRecordsEffect(endpoint: string, domain: string, base: seq<Item>, domainDb: string,
                               fileMissing: bool, action: string, rows: seq<Row>, replies: seq<Reply>): Outcome
    requires |replies| == |rows|
  {
    if fileMissing then Effect(base, [], [LogEvent(Error, [("domain_db", domainDb)])], Normal)
    else match ParseAction(action)
      case Some(op) => Run(RowCall(endpoint, domain, op), base, rows, replies)
      case None => Effect(base, [], [LogEvent(Error, [("action", action)])], Normal)
  }

  class RecordHandler {
    const secretapikey: string
    const apikey: string
    const endpoint: string
    const domain: string
    const basePayload: Dict

    ghost predicate Valid()
      reads basePayload
    {
      basePayload.Valid()
    }

    /** `__init__` with the secrets file already read. */
    constructor (secretapikey: string, apikey: string, endpoint: string, domain: string)
      ensures this.secretapikey == secretapikey && this.apikey == apikey
      ensures this.endpoint == endpoint && this.domain == domain
      ensures fresh(basePayload) && Valid()
      ensures basePayload.items == Credentials(apikey, secretapikey)
    {
      this.secretapikey := secretapikey;
      this.apikey := apikey;
      this.endpoint := endpoint;
      this.domain := domain;
      var creds := Credentials(apikey, secretapikey);
      basePayload := new Dict(creds);
      MergeFresh([], creds);
    }

    /** `call_api(payload, url)`, a static method: `payload` is changed in
        place. */
    static method CallApi(w: World, payload: Dict, url: string, reply: Reply) returns (out: CallOutcome)
      requires payload.Valid()
      modifies w, payload
      ensures payload.Valid()
      ensures var e := CallApiEffect(old(payload.items), reply);
              out == e.outcome && payload.items == e.after && w.log == old(w.log) + e.logged
      ensures w.sent == old(w.sent) + [Request(url, old(payload.items))]
    {
      w.Post(url, payload.items);
      if reply.ConnectionFailure? {
        w.Log(Error, payload.items);
        return NoResponse;
      }
      var key := payload.Pop("apikey");
      if key.None? {
        return Raise(KeyError);
      }
      var secret := payload.Pop("secretapikey");
      if secret.None? {
        return Raise(KeyError);
      }
      if reply.code != 200 {
        w.Log(Error, payload.items);
      } else {
        w.Log(Info, payload.items);
      }
      return Response(reply.code);
    }

    method CreateRecord(w: World, recordName: string, recordType: string, recordContent: string, reply: Reply)
      returns (out: CallOutcome)
      requires Valid()
      modifies w
      ensures var s := CreateStep(endpoint, domain, basePayload.items, recordName, recordType, recordContent, reply);
              w.sent == old(w.sent) + s.sent && w.log == old(w.log) + s.logged
      ensures out == CallApiEffect(CreatePayload(basePayload.items, recordName, recordType, recordContent), reply).outcome
    {
      var lit := [("type", recordType), ("name", recordName), ("content", recordContent)];
      var payload := new Dict(lit);
      MergeFresh([], lit);
      assert [] + lit == lit;
      payload.Update(basePayload);
      var url := endpoint + "/create/" + domain;
      out := CallApi(w, payload, url, reply);
    }

    method UpdateRecord(w: World, recordContent: string, recordType: string, recordName: string, reply: Reply)
      returns (out: CallOutcome)
      requires Valid()
      modifies w
      ensures var s := UpdateStep(endpoint, domain, basePayload.items, recordContent, recordType, recordName, reply);
              w.sent == old(w.sent) + s.sent && w.log == old(w.log) + s.logged
      ensures out == CallApiEffect(UpdatePayload(basePayload.items, recordContent), reply).outcome
    {
      var lit := [("content", recordContent)];
      var payload := new Dict(lit);
      MergeFresh([], lit);
      assert [] + lit == lit;
      payload.Update(basePayload);
      var url := endpoint + "/editByNameType/" + domain + "/" + recordType + "/" + recordName;
      out := CallApi(w, payload, url, reply);
    }

    method DeleteRecord(w: World, recordName: string, recordType: string, reply: Reply)
      returns (out: CallOutcome)
      requires Valid()
      modifies w, basePayload
      ensures Valid()
      ensures var s := DeleteStep(endpoint, domain, old(basePayload.items), recordName, recordType, reply);
              basePayload.items == s.state && w.sent == old(w.sent) + s.sent && w.log == old(w.log) + s.logged
      ensures out == CallApiEffect(old(basePayload.items), reply).outcome
    {
      var payload := basePayload;
      var url := endpoint + "/deleteByNameType/" + domain + "/" + recordType + "/" + recordName;
      out := CallApi(w, payload, url, reply);
    }

    /** The call one step of `change_records`' list comprehension makes; the
        response it returns is discarded. */
    method ApplyRow(w: World, op: Op, row: Row, reply: Reply) returns (c: Completion)
      requires Valid()
      modifies w, basePayload
      ensures Valid()
      ensures var s := RowCall(endpoint, domain, op)(old(basePayload.items), row, reply);
              c == s.completion && basePayload.items == s.state
              && w.sent == old(w.sent) + s.sent && w.log == old(w.log) + s.logged
    {
      var out: CallOutcome;
      match op {
        case Update =>
          out := UpdateRecord(w, row.host, row.rtype, row.answer, reply);
        case Create =>
          out := CreateRecord(w, row.host, row.rtype, row.answer, reply);
        case Delete =>
          out := DeleteRecord(w, row.host, row.rtype, reply);
      }
      c := if out.Raise? then Raised(out.exc) else Normal;
    }

    /** One step of a list comprehension, once the rows before row `i` have
        all returned normally. */
    method ApplyNext(w: World, op: Op, rows: seq<Row>, replies: seq<Reply>, i: nat,
                     ghost call: (seq<Item>, Row, Reply) -> Outcome,
                     ghost base0: seq<Item>, ghost sent0: seq<Request>, ghost log0: seq<LogEvent>)
      returns (c: Completion)
      requires CallsRowStep(call, endpoint, domain, op)
      requires Valid() && |replies| == |rows| && i < |rows|
      requires var t := RunTo(call, base0, rows, replies, i);
               t.completion == Normal && basePayload.items == t.state
               && w.sent == sent0 + t.sent && w.log == log0 + t.logged
      modifies w, basePayload
      ensures Valid()
      ensures var t := RunTo(call, base0, rows, replies, i + 1);
              c == t.completion && basePayload.items == t.state
              && w.sent == sent0 + t.sent && w.log == log0 + t.logged
    {
      RunStep(call, base0, rows, replies, i);
      ThenExtends(sent0, log0, RunTo(call, base0, rows, replies, i),
                  call(basePayload.items, rows[i], replies[i]));
      c := ApplyRow(w, op, rows[i], replies[i]);
    }

    /** One of `change_records`' list comprehensions: a call per row, in order,
        until a call raises. */
    method ApplyAll(w: World, op: Op, rows: seq<Row>, replies: seq<Reply>,
                    ghost call: (seq<Item>, Row, Reply) -> Outcome) returns (c: Completion)
      requires CallsRowStep(call, endpoint, domain, op)
      requires Valid() && |replies| == |rows|
      modifies w, basePayload
      ensures Valid()
      ensures var t := Run(call, old(basePayload.items), rows, replies);
              c == t.completion && basePayload.items == t.state
              && w.sent == old(w.sent) + t.sent && w.log == old(w.log) + t.logged
    {
      ghost var base0 := basePayload.items;
      var i := 0;
      while i < |rows|
        invariant 0 <= i <= |rows| && Valid()
        invariant var t := RunTo(call, base0, rows, replies, i);
                  t.completion == Normal && basePayload.items == t.state
                  && w.sent == old(w.sent) + t.sent && w.log == old(w.log) + t.logged
      {
        c := ApplyNext(w, op, rows, replies, i, call, base0, old(w.sent), old(w.log));
        if c.Raised? {
          RunStopsOnRaise(call, base0, rows, replies, i + 1, |rows|);
          return;
        }
        i := i + 1;
      }
      return Normal;
    }

    /** `change_records(domain_db, action)`, with the file already read into
        `rows` (or found missing); `replies[i]` answers row `i`'s post. */
    method ChangeRecords(w: World, domainDb: string, fileMissing: bool, action: string,
                         rows: seq<Row>, replies: seq<Reply>) returns (c: Completion)
      requires Valid() && |replies| == |rows|
      modifies w, basePayload
      ensures Valid()
      ensures var t := ChangeRecordsEffect(endpoint, domain, old(basePayload.items), domainDb,
                                           fileMissing, action, rows, replies);
              c == t.completion && basePayload.items == t.state
              && w.sent == old(w.sent) + t.sent && w.log == old(w.log) + t.logged
    {
      if fileMissing {
        w.Log(Error, [("domain_db", domainDb)]);
        return Normal;
      }
      var op := ParseAction(action);
      if op.None? {
        w.Log(Error, [("action", action)]);
        return Normal;
      }
      RowCallIs(endpoint, domain, op.value);
      c := ApplyAll(w, op.value, rows, replies, RowCall(endpoint, domain, op.value));
    }
  }

  // ---------------------------------------------------------------------------
  // call_api

  /** Once the post returns, `call_api` raises `KeyError` exactly when a
      credential is missing from the payload; otherwise it strips both
      credentials, keeps every other entry, logs the stripped payload (info for
      status 200, error otherwise) and returns the response. */
  lemma CallApiOnResponse(payload: seq<Item>, code: int)
    requires DistinctKeys(payload)
    ensures var e := CallApiEffect(payload, Status(code));
            (e.outcome == Raise(KeyError) <==> !(HasKey(payload, "apikey") && HasKey(payload, "secretapikey")))
            && (e.outcome.Raise? || e.outcome == Response(code))
    ensures var e := CallApiEffect(payload, Status(code));
            e.outcome == Response(code) ==>
              && CredentialFree(e.after)
              && DistinctKeys(e.after)
              && (forall j :: j != "apikey" && j != "secretapikey" ==> Get(e.after, j) == Get(payload, j))
              && e.logged == [LogEvent(if code == 200 then Info else Error, e.after)]
  {
    var p1 := Remove(payload, "apikey");
    RemoveGone(payload, "apikey");
    RemoveGet(payload, "apikey", "secretapikey");
    if HasKey(payload, "apikey") && HasKey(payload, "secretapikey") {
      var p2 := Remove(p1, "secretapikey");
      RemoveGone(p1, "secretapikey");
      RemoveGet(p1, "secretapikey", "apikey");
      forall j | j != "apikey" && j != "secretapikey"
        ensures Get(p2, j) == Get(payload, j)
      {
        RemoveGet(payload, "apikey", j);
        RemoveGet(p1, "secretapikey", j);
      }
    }
  }

  /** A connection failure, whatever the payload, leaves the payload whole,
      returns `None`, and hands the payload as it was to `logger.error` as its
      argument, so a payload holding a credential hands that credential over. */
  lemma CallApiOnConnectionFailure(payload: seq<Item>)
    ensures var e := CallApiEffect(payload, ConnectionFailure);
            e.after == payload && e.outcome == NoResponse && e.logged == [LogEvent(Error, payload)]
    ensures HasKey(payload, "apikey") ==> !CredentialFree(CallApiEffect(payload, ConnectionFailure).logged[0].logged)
  {
  }

  // ---------------------------------------------------------------------------
  // The three handler calls

  /** Stripping the two trailing credentials from a payload leaves the rest. */
  lemma StripCredentials(front: seq<Item>, k: string, s: string)
    requires DistinctKeys(front + Credentials(k, s))
    ensures Remove(front + Credentials(k, s), "apikey") == front + [("secretapikey", s)]
    ensures Remove(front + [("secretapikey", s)], "secretapikey") == front
  {
    var p := front + Credentials(k, s);
    IndexOfAt(p, "apikey", |front|);
    assert p[..|front|] + p[|front| + 1..] == front + [("secretapikey", s)];
    var q := front + [("secretapikey", s)];
    assert forall t :: 0 <= t < |front| ==> q[t] == p[t];
    IndexOfAt(q, "secretapikey", |front|);
    assert q[..|front|] == front;
  }

  /** Payload entries built by the handlers, their keys all distinct. */
  lemma PayloadKeysDistinct(k: string, s: string, name: string, rtype: string, content: string)
    ensures DistinctKeys([("type", rtype), ("name", name), ("content", content)] + Credentials(k, s))
    ensures DistinctKeys([("content", content)] + Credentials(k, s))
  {
    var a := [("type", rtype), ("name", name), ("content", content)] + Credentials(k, s);
    assert a[0].0[0] == 't' && a[1].0[0] == 'n' && a[2].0[0] == 'c' && a[3].0[0] == 'a' && a[4].0[0] == 's';
  }

  /** `create_record` posts once, to `endpoint/create/domain`, a body with
      exactly the entries type, name, content, apikey, secretapikey in that
      order; it never raises and `base_payload` keeps both credentials.  After
      a response the line logged holds type, name and content only. */
  lemma CreateRecordRequest(endpoint: string, domain: string, k: string, s: string,
                            name: string, rtype: string, content: string, reply: Reply)
    ensures var st := CreateStep(endpoint, domain, Credentials(k, s), name, rtype, content, reply);
            && st.sent == [Request(endpoint + "/create/" + domain,
                                   [("type", rtype), ("name", name), ("content", content), ("apikey", k), ("secretapikey", s)])]
            && st.state == Credentials(k, s)
            && st.completion == Normal
            && (reply.Status? ==> st.logged == [LogEvent(if reply.code == 200 then Info else Error,
                                                         [("type", rtype), ("name", name), ("content", content)])])
  {
    var lit := [("type", rtype), ("name", name), ("content", content)];
    PayloadKeysDistinct(k, s, name, rtype, content);
    MergeFresh(lit, Credentials(k, s));
    assert CreatePayload(Credentials(k, s), name, rtype, content) == lit + Credentials(k, s);
    assert lit + Credentials(k, s)
        == [("type", rtype), ("name", name), ("content", content), ("apikey", k), ("secretapikey", s)];
    if reply.Status? {
      StripCredentials(lit, k, s);
    }
  }

  /** `change_records` calls `update_record(host, type, answer)` against the
      declared order `(record_content, record_type, record_name)`: the body's
      content is the row's host and the URL's name segment is its answer.  The
      call never raises and `base_payload` keeps both credentials. */
  lemma UpdateCallSiteSwapsHostAndAnswer(endpoint: string, domain: string, k: string, s: string,
                                         row: Row, reply: Reply)
    ensures var st := RowStep(endpoint, domain, Credentials(k, s), Update, row, reply);
            && st.sent == [Request(endpoint + "/editByNameType/" + domain + "/" + row.rtype + "/" + row.answer,
                                   [("content", row.host), ("apikey", k), ("secretapikey", s)])]
            && st.state == Credentials(k, s)
            && st.completion == Normal
            && (reply.Status? ==> st.logged == [LogEvent(if reply.code == 200 then Info else Error,
                                                         [("content", row.host)])])
  {
    var lit := [("content", row.host)];
    PayloadKeysDistinct(k, s, "", "", row.host);
    MergeFresh(lit, Credentials(k, s));
    assert UpdatePayload(Credentials(k, s), row.host) == lit + Credentials(k, s);
    assert lit + Credentials(k, s) == [("content", row.host), ("apikey", k), ("secretapikey", s)];
    if reply.Status? {
      StripCredentials(lit, k, s);
    }
  }

  /** `delete_record` posts `base_payload` itself; once the post returns,
      `base_payload` has lost both credentials and kept everything else. */
  lemma DeleteStripsSharedPayload(endpoint: string, domain: string, base: seq<Item>,
                                  name: string, rtype: string, code: int)
    requires DistinctKeys(base) && HasKey(base, "apikey") && HasKey(base, "secretapikey")
    ensures var st := DeleteStep(endpoint, domain, base, name, rtype, Status(code));
            && st.sent == [Request(endpoint + "/deleteByNameType/" + domain + "/" + rtype + "/" + name, base)]
            && st.completion == Normal
            && CredentialFree(st.state) && DistinctKeys(st.state)
            && forall j :: j != "apikey" && j != "secretapikey" ==> Get(st.state, j) == Get(base, j)
  {
    CallApiOnResponse(base, code);
  }

  /** A delete with `base_payload` as `__init__` leaves it, once the post
      returns, empties `base_payload`: both credentials are popped from it. */
  lemma DeleteEmptiesPayload(endpoint: string, domain: string, k: string, s: string, row: Row, code: int)
    ensures var st := RowStep(endpoint, domain, Credentials(k, s), Delete, row, Status(code));
            st.state == [] && st.completion == Normal
            && st.sent == [Request(DeleteUrl(endpoint, domain, row.rtype, row.host), Credentials(k, s))]
  {
    StripCredentials([], k, s);
    assert [] + Credentials(k, s) == Credentials(k, s);
    assert [] + [("secretapikey", s)] == [("secretapikey", s)];
  }

  /** A delete with an emptied `base_payload` posts an empty body and, once the
      post returns, raises `KeyError`. */
  lemma DeleteOfEmptyRaises(endpoint: string, domain: string, row: Row, reply: Reply)
    ensures var st := RowStep(endpoint, domain, [], Delete, row, reply);
            st.sent == [Request(DeleteUrl(endpoint, domain, row.rtype, row.host), [])]
            && (reply.Status? ==> st.completion == Raised(KeyError))
  {
    Absent([], "apikey");
  }

  // ---------------------------------------------------------------------------
  // Batches

  /** A delete batch of two or more rows whose first two posts return: the
      first request carries both credentials and strips them from
      `base_payload`, the second is posted with an empty body and then raises
      `KeyError`, and no later row is attempted. */
  lemma DeleteBatchAbortsAtSecondRow(endpoint: string, domain: string, k: string, s: string,
                                     rows: seq<Row>, replies: seq<Reply>)
    requires |rows| >= 2 && |replies| == |rows| && replies[0].Status? && replies[1].Status?
    ensures var t := Run(RowCall(endpoint, domain, Delete), Credentials(k, s), rows, replies);
            && t.sent == [Request(DeleteUrl(endpoint, domain, rows[0].rtype, rows[0].host), Credentials(k, s)),
                          Request(DeleteUrl(endpoint, domain, rows[1].rtype, rows[1].host), [])]
            && t.completion == Raised(KeyError)
            && t.state == []
  {
    var call := RowCall(endpoint, domain, Delete);
    var base := Credentials(k, s);
    DeleteEmptiesPayload(endpoint, domain, k, s, rows[0], replies[0].code);
    DeleteOfEmptyRaises(endpoint, domain, rows[1], replies[1]);
    RunStopsOnRaise(call, base, rows, replies, 2, |rows|);
  }

  /** A create or update with `base_payload` as `__init__` leaves it: it
      returns normally, leaves `base_payload` alone, posts one request and logs
      one line.  When the post returned, the payload handed to the logger is
      free of credentials, and the line is at info level exactly for status
      200.  After a connection failure the line is at error level and the
      payload handed to the logger still holds the API key. */
  lemma IntactCreateOrUpdate(endpoint: string, domain: string, k: string, s: string,
                             op: Op, row: Row, reply: Reply)
    requires op != Delete
    ensures var st := RowStep(endpoint, domain, Credentials(k, s), op, row, reply);
            && st.state == Credentials(k, s) && st.completion == Normal
            && |st.sent| == 1 && |st.logged| == 1
            && (reply.Status? ==> CredentialFree(st.logged[0].logged)
                                  && st.logged[0].level == if reply.code == 200 then Info else Error)
            && (reply.ConnectionFailure? ==> HasKey(st.logged[0].logged, "apikey") && st.logged[0].level == Error)
  {
    LiteralPayloadsCredentialFree(row.host, row.rtype, row.answer);
    if op == Create {
      CreateRecordRequest(endpoint, domain, k, s, row.host, row.rtype, row.answer, reply);
      CredentialsPresent(row.host, row.rtype, row.answer, k, s);
    } else {
      UpdateCallSiteSwapsHostAndAnswer(endpoint, domain, k, s, row, reply);
      CredentialsPresent(row.answer, row.rtype, row.host, k, s);
    }
  }

  /** The entries the handlers log after a response carry no credential. */
  lemma LiteralPayloadsCredentialFree(name: string, rtype: string, content: string)
    ensures CredentialFree([("type", rtype), ("name", name), ("content", content)])
    ensures CredentialFree([("content", content)])
  {
    var a := [("type", rtype), ("name", name), ("content", content)];
    assert forall t :: 0 <= t < |a| ==> a[t].0[0] != 'a' && a[t].0[0] != 's';
    Absent(a, "apikey");
    Absent(a, "secretapikey");
    Absent([("content", content)], "apikey");
    Absent([("content", content)], "secretapikey");
  }

  /** The payloads create and update post hold the API key. */
  lemma CredentialsPresent(name: string, rtype: string, content: string, k: string, s: string)
    ensures HasKey([("type", rtype), ("name", name), ("content", content), ("apikey", k), ("secretapikey", s)], "apikey")
    ensures HasKey([("content", content), ("apikey", k), ("secretapikey", s)], "apikey")
  {
    var a := [("type", rtype), ("name", name), ("content", content), ("apikey", k), ("secretapikey", s)];
    assert a[0].0[0] == 't' && a[1].0[0] == 'n' && a[2].0[0] == 'c';
    IndexOfAt(a, "apikey", 3);
    IndexOfAt([("content", content), ("apikey", k), ("secretapikey", s)], "apikey", 1);
  }

  /** With `base_payload` as `__init__` leaves it, a create or update batch
      posts exactly one request per row, in row order, whatever the replies and
      whatever the record types (nothing in this handler checks them); it
      returns normally, never changes `base_payload` and logs one line per row.
      The payload handed to the logger holds no credential when that row's post
      returned, and holds the API key when it failed to connect. */
  lemma CreateOrUpdateBatchSendsEveryRow(endpoint: string, domain: string, k: string, s: string,
                                         op: Op, rows: seq<Row>, replies: seq<Reply>)
    requires op != Delete && |replies| == |rows|
    ensures var t := Run(RowCall(endpoint, domain, op), Credentials(k, s), rows, replies);
            && t.completion == Normal && t.state == Credentials(k, s)
            && |t.sent| == |rows| && |t.logged| == |rows|
            && (forall i :: 0 <= i < |rows| ==>
                  [t.sent[i]] == RowStep(endpoint, domain, Credentials(k, s), op, rows[i], replies[i]).sent)
            && (forall i :: 0 <= i < |rows| && replies[i].Status? ==> CredentialFree(t.logged[i].logged))
            && (forall i :: 0 <= i < |rows| && replies[i].ConnectionFailure? ==> HasKey(t.logged[i].logged, "apikey"))
  {
    var call := RowCall(endpoint, domain, op);
    var base := Credentials(k, s);
    forall i | 0 <= i < |rows|
      ensures var e := call(base, rows[i], replies[i]);
              e.state == base && e.completion == Normal && |e.sent| == 1 && |e.logged| == 1
    {
      IntactCreateOrUpdate(endpoint, domain, k, s, op, rows[i], replies[i]);
    }
    RunSteady(call, base, rows, replies, |rows|);
    forall i | 0 <= i < |rows|
      ensures replies[i].Status? ==> CredentialFree(call(base, rows[i], replies[i]).logged[0].logged)
      ensures replies[i].ConnectionFailure? ==> HasKey(call(base, rows[i], replies[i]).logged[0].logged, "apikey")
    {
      IntactCreateOrUpdate(endpoint, domain, k, s, op, rows[i], replies[i]);
    }
  }

  /** A missing file, or an action other than update, create and delete, posts
      nothing, logs one error and leaves `base_payload` alone. */
  lemma NothingPostedWithoutRowsOrAction(endpoint: string, domain: string, base: seq<Item>, domainDb: string,
                                         fileMissing: bool, action: string, rows: seq<Row>, replies: seq<Reply>)
    requires |replies| == |rows|
    requires fileMissing || action !in {"update", "create", "delete"}
    ensures var t := ChangeRecordsEffect(endpoint, domain, base, domainDb, fileMissing, action, rows, replies);
            t.sent == [] && |t.logged| == 1 && t.logged[0].level == Error
            && t.state == base && t.completion == Normal
  {
  }
}
