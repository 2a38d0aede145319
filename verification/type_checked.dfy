/** The record handler of `porkbundns/dns/recordhandler.py`: create and update
    only, each guarded by `_check_record`, which raises when the record type is
    not a known one.  Every call builds its own payload dict from the handler's
    credential fields, and posts it itself. */
module TypeChecked {
  import opened Dicts
  import opened Effects
  import opened Batches

  /** What `__init__` reads from the secrets file. */
  datatype Secrets = Secrets(apikey: string, secretapikey: string, endpoint: string, domain: string)

  /** A call leaves no handler state behind. */
  type Outcome = Effect<()>

  /** `_check_record(record_type)` failing: one error logged (its message shows
      the known types, none of the payload), then `ConnectionError` raised. */
  const TypeRejected: Outcome := Effect((), [], [LogEvent(Error, [])], Raised(ConnectionError))

  /** The payload `create_record` posts: the credentials display, then
      `name`, `type` and `content` assigned in that order. */
  function CreatePayload(cfg: Secrets, recordName: string, recordType: string, recordContent: string): seq<Item> {
    Assign(Assign(Assign(Credentials(cfg.apikey, cfg.secretapikey), "name", recordName), "type", recordType),
           "content", recordContent)
  }

  /** The payload `update_record` posts: the credentials display, then
      `content` assigned. */
  function UpdatePayload(cfg: Secrets, recordContent: string): seq<Item> {
    Assign(Credentials(cfg.apikey, cfg.secretapikey), "content", recordContent)
  }

  /** What a create or update logs once its post is answered: the record's
      name, type and content on a connection failure (error) and on status 200
      (info), its name alone on any other status (error). */
  function Logged(reply: Reply, recordName: string, recordType: string, recordContent: string): LogEvent {
    var all := [("record_name", recordName), ("record_type", recordType), ("record_content", recordContent)];
    match reply
    case ConnectionFailure => LogEvent(Error, all)
    case Status(code) => if code != 200 then LogEvent(Error, [("record_name", recordName)]) else LogEvent(Info, all)
  }

  /** `create_record(record_name, record_type, record_content)`: the type check
      runs before anything is built or posted, outside the method's `try`. */
  function CreateStep(cfg: Secrets, recordTypes: set<string>,
                      recordName: string, recordType: string, recordContent: string, reply: Reply): Outcome
  {
    if recordType !in recordTypes then TypeRejected
    else
      var url := cfg.endpoint + "/create/" + cfg.domain;
      Effect((), [Request(url, CreatePayload(cfg, recordName, recordType, recordContent))],
             [Logged(reply, recordName, recordType, recordContent)], Normal)
  }

  /** `update_record(record_name, record_type, record_content)`. */
  function UpdateStep(cfg: Secrets, recordTypes: set<string>,
                      recordName: string, recordType: string, recordContent: string, reply: Reply): Outcome
  {
    if recordType !in recordTypes then TypeRejected
    else
      var url := cfg.endpoint + "/editByNameType/" + cfg.domain + "/" + recordType + "/" + recordName;
      Effect((), [Request(url, UpdatePayload(cfg, recordContent))],
             [Logged(reply, recordName, recordType, recordContent)], Normal)
  }

  /** One pass of `change_records`' loop: the action is examined for every row;
      the call sites pass `(host, type, answer)`; any other action, `delete`
      included, logs an error and the loop goes on. */
  function RowStep(cfg: Secrets, recordTypes: set<string>, action: string, row: Row, reply: Reply): Outcome {
    if action == "update" then UpdateStep(cfg, recordTypes, row.host, row.rtype, row.answer, reply)
    else if action == "create" then CreateStep(cfg, recordTypes, row.host, row.rtype, row.answer, reply)
    else Effect((), [], [LogEvent(Error, [("action", action)])], Normal)
  }

  function RowCall(cfg: Secrets, recordTypes: set<string>, action: string): ((), Row, Reply) -> Outcome {
    (u, row, reply) => RowStep(cfg, recordTypes, action, row, reply)
  }

  /** `call` makes, on every row and reply, the call `RowStep` describes.  The
      loop below is stated for any such `call`, so that its proof never needs
      to look inside a row's call. */
  ghost predicate CallsRowStep(call: ((), Row, Reply) -> Outcome, cfg: Secrets, recordTypes: set<string>, action: string) {
    forall u, r, p {:trigger RowStep(cfg, recordTypes, action, r, p), call(u, r, p)} ::
      call(u, r, p) == RowStep(cfg, recordTypes, action, r, p)
  }

  /** `RowCall` is such a call. */
  lemma RowCallIs(cfg: Secrets, recordTypes: set<string>, action: string)
    ensures CallsRowStep(RowCall(cfg, recordTypes, action), cfg, recordTypes, action)
  {
  }

  /** `change_records(domain_db, action)`: its `try` catches only a missing
      file, so an exception out of a row's call ends the whole batch. */
  function ChangeRecordsEffect(cfg: Secrets, recordTypes: set<string>, domainDb: string, fileMissing: bool,
                               action: string, rows: seq<Row>, replies: seq<Reply>): Outcome
    requires |replies| == |rows|
  {
    if fileMissing then Effect((), [], [LogEvent(Error, [("domain_db", domainDb)])], Normal)
    else Run(RowCall(cfg, recordTypes, action), (), rows, replies)
  }

  /** `_check_record(record_type)`: logs one error and raises `ConnectionError`
      exactly when `record_type` is not among `record_types`. */
  method CheckRecord(w: World, recordTypes: set<string>, recordType: string) returns (c: Completion)
    modifies w
    ensures c == Raised(ConnectionError) <==> recordType !in recordTypes
    ensures c == Normal <==> recordType in recordTypes
    ensures w.sent == old(w.sent)
    ensures w.log == old(w.log) + if recordType in recordTypes then [] else [LogEvent(Error, [])]
  {
    if recordType !in recordTypes {
      w.Log(Error, []);
      return Raised(ConnectionError);
    }
    return Normal;
  }

  class RecordHandler {
    const secretapikey: string
    const apikey: string
    const endpoint: string
    const domain: string

    function Config(): Secrets {
      Secrets(apikey, secretapikey, endpoint, domain)
    }

    /** `__init__` with the secrets file already read. */
    constructor (secretapikey: string, apikey: string, endpoint: string, domain: string)
      ensures Config() == Secrets(apikey, secretapikey, endpoint, domain)
    {
      this.secretapikey := secretapikey;
      this.apikey := apikey;
      this.endpoint := endpoint;
      this.domain := domain;
    }

    /** The dict display `{"apikey": ..., "secretapikey": ...}` both calls
        start from. */
    method NewPayload() returns (payload: Dict)
      ensures fresh(payload) && payload.Valid()
      ensures payload.items == Credentials(apikey, secretapikey)
    {
      var creds := Credentials(apikey, secretapikey);
      payload := new Dict(creds);
      MergeFresh([], creds);
      assert [] + creds == creds;
    }

    /** `create_record`'s payload: the display, then `name`, `type` and
        `content` assigned one after the other. */
    method NewCreatePayload(recordName: string, recordType: string, recordContent: string) returns (payload: Dict)
      ensures fresh(payload) && payload.items == CreatePayload(Config(), recordName, recordType, recordContent)
    {
      payload := NewPayload();
      payload.Set("name", recordName);
      payload.Set("type", recordType);
      payload.Set("content", recordContent);
    }

    /** `update_record`'s payload: the display, then `content` assigned. */
    method NewUpdatePayload(recordContent: string) returns (payload: Dict)
      ensures fresh(payload) && payload.items == UpdatePayload(Config(), recordContent)
    {
      payload := NewPayload();
      payload.Set("content", recordContent);
    }

    /** Posts `payload` to `url` and logs the outcome, as the `try` blocks of
        `create_record` and `update_record` do. */
    method PostAndLog(w: World, url: string, payload: seq<Item>, reply: Reply,
                      recordName: string, recordType: string, recordContent: string)
      modifies w
      ensures w.sent == old(w.sent) + [Request(url, payload)]
      ensures w.log == old(w.log) + [Logged(reply, recordName, recordType, recordContent)]
    {
      w.Post(url, payload);
      match reply {
        case ConnectionFailure =>
          w.Log(Error, [("record_name", recordName), ("record_type", recordType), ("record_content", recordContent)]);
        case Status(code) =>
          if code != 200 {
            w.Log(Error, [("record_name", recordName)]);
          } else {
            w.Log(Info, [("record_name", recordName), ("record_type", recordType), ("record_content", recordContent)]);
          }
      }
    }

    method CreateRecord(w: World, recordTypes: set<string>,
                        recordName: string, recordType: string, recordContent: string, reply: Reply)
      returns (c: Completion)
      modifies w
      ensures var e := CreateStep(Config(), recordTypes, recordName, recordType, recordContent, reply);
              c == e.completion && w.sent == old(w.sent) + e.sent && w.log == old(w.log) + e.logged
    {
      c := CheckRecord(w, recordTypes, recordType);
      if c.Raised? {
        return;
      }
      var payload := NewCreatePayload(recordName, recordType, recordContent);
      var url := endpoint + "/create/" + domain;
      PostAndLog(w, url, payload.items, reply, recordName, recordType, recordContent);
    }

    method UpdateRecord(w: World, recordTypes: set<string>,
                        recordName: string, recordType: string, recordContent: string, reply: Reply)
      returns (c: Completion)
      modifies w
      ensures var e := UpdateStep(Config(), recordTypes, recordName, recordType, recordContent, reply);
              c == e.completion && w.sent == old(w.sent) + e.sent && w.log == old(w.log) + e.logged
    {
      c := CheckRecord(w, recordTypes, recordType);
      if c.Raised? {
        return;
      }
      var payload := NewUpdatePayload(recordContent);
      var url := endpoint + "/editByNameType/" + domain + "/" + recordType + "/" + recordName;
      PostAndLog(w, url, payload.items, reply, recordName, recordType, recordContent);
    }

    /** One pass of `change_records`' loop. */
    method ApplyRow(w: World, recordTypes: set<string>, action: string, row: Row, reply: Reply)
      returns (c: Completion)
      modifies w
      ensures var e := RowCall(Config(), recordTypes, action)((), row, reply);
              c == e.completion && w.sent == old(w.sent) + e.sent && w.log == old(w.log) + e.logged
    {
      if action == "update" {
        c := UpdateRecord(w, recordTypes, row.host, row.rtype, row.answer, reply);
      } else if action == "create" {
        c := CreateRecord(w, recordTypes, row.host, row.rtype, row.answer, reply);
      } else {
        w.Log(Error, [("action", action)]);
        c := Normal;
      }
    }

    /** One pass of `change_records`' loop, once the rows before row `i` have
        all returned normally. */
    method ApplyNext(w: World, recordTypes: set<string>, action: string, rows: seq<Row>, replies: seq<Reply>,
                     i: nat, ghost call: ((), Row, Reply) -> Outcome,
                     ghost sent0: seq<Request>, ghost log0: seq<LogEvent>) returns (c: Completion)
      requires CallsRowStep(call, Config(), recordTypes, action)
      requires |replies| == |rows| && i < |rows|
      requires var t := RunTo(call, (), rows, replies, i);
               t.completion == Normal && w.sent == sent0 + t.sent && w.log == log0 + t.logged
      modifies w
      ensures var t := RunTo(call, (), rows, replies, i + 1);
              c == t.completion && w.sent == sent0 + t.sent && w.log == log0 + t.logged
    {
      RunStep(call, (), rows, replies, i);
      ThenExtends(sent0, log0, RunTo(call, (), rows, replies, i), call((), rows[i], replies[i]));
      c := ApplyRow(w, recordTypes, action, rows[i], replies[i]);
    }

    /** The loop of `change_records`: a call per row, in order, until one
        raises. */
    method ApplyAll(w: World, recordTypes: set<string>, action: string, rows: seq<Row>, replies: seq<Reply>,
                    ghost call: ((), Row, Reply) -> Outcome) returns (c: Completion)
      requires CallsRowStep(call, Config(), recordTypes, action)
      requires |replies| == |rows|
      modifies w
      ensures var t := Run(call, (), rows, replies);
              c == t.completion && w.sent == old(w.sent) + t.sent && w.log == old(w.log) + t.logged
    {
      var i := 0;
      while i < |rows|
        invariant 0 <= i <= |rows|
        invariant var t := RunTo(call, (), rows, replies, i);
                  t.completion == Normal && w.sent == old(w.sent) + t.sent && w.log == old(w.log) + t.logged
      {
        c := ApplyNext(w, recordTypes, action, rows, replies, i, call, old(w.sent), old(w.log));
        if c.Raised? {
          RunStopsOnRaise(call, (), rows, replies, i + 1, |rows|);
          return;
        }
        i := i + 1;
      }
      return Normal;
    }

    /** `change_records(domain_db, action)`, with the file already read into
        `rows` (or found missing); `replies[i]` answers row `i`'s post. */
    method ChangeRecords(w: World, recordTypes: set<string>, domainDb: string, fileMissing: bool,
                         action: string, rows: seq<Row>, replies: seq<Reply>) returns (c: Completion)
      requires |replies| == |rows|
      modifies w
      ensures var t := ChangeRecordsEffect(Config(), recordTypes, domainDb, fileMissing, action, rows, replies);
              c == t.completion && w.sent == old(w.sent) + t.sent && w.log == old(w.log) + t.logged
    {
      if fileMissing {
        w.Log(Error, [("domain_db", domainDb)]);
        return Normal;
      }
      RowCallIs(Config(), recordTypes, action);
      c := ApplyAll(w, recordTypes, action, rows, replies, RowCall(Config(), recordTypes, action));
    }
  }

  // ---------------------------------------------------------------------------
  // The calls

  /** An unknown record type makes create and update raise before any payload
      is built: nothing is posted and the one line logged is the type check's. */
  lemma InvalidTypeSendsNothing(cfg: Secrets, recordTypes: set<string>, action: string, row: Row, reply: Reply)
    requires action == "create" || action == "update"
    requires row.rtype !in recordTypes
    ensures var e := RowStep(cfg, recordTypes, action, row, reply);
            e.sent == [] && e.logged == [LogEvent(Error, [])] && e.completion == Raised(ConnectionError)
  {
  }

  /** `create_record` with a known type posts once, to `endpoint/create/domain`,
      the entries apikey, secretapikey, name, type, content in that order. */
  lemma CreateRecordRequest(cfg: Secrets, recordTypes: set<string>,
                            name: string, rtype: string, content: string, reply: Reply)
    requires rtype in recordTypes
    ensures var e := CreateStep(cfg, recordTypes, name, rtype, content, reply);
            && e.sent == [Request(cfg.endpoint + "/create/" + cfg.domain,
                                  [("apikey", cfg.apikey), ("secretapikey", cfg.secretapikey),
                                   ("name", name), ("type", rtype), ("content", content)])]
            && e.completion == Normal && |e.logged| == 1
  {
    var c := Credentials(cfg.apikey, cfg.secretapikey);
    assert c[0].0[0] == 'a' && c[1].0[0] == 's';
    AssignNew(c, "name", name);
    var c1 := c + [("name", name)];
    assert c1[2].0[0] == 'n';
    AssignNew(c1, "type", rtype);
    var c2 := c1 + [("type", rtype)];
    assert c2[3].0[0] == 't';
    AssignNew(c2, "content", content);
    assert c2 + [("content", content)] == [("apikey", cfg.apikey), ("secretapikey", cfg.secretapikey),
                                           ("name", name), ("type", rtype), ("content", content)];
  }

  /** `change_records` calls `update_record(host, type, answer)` in the order
      the method declares `(record_name, record_type, record_content)`: the
      URL's name segment is the host and the body's content is the answer, next
      to the two credentials. */
  lemma UpdateCallSiteMatches(cfg: Secrets, recordTypes: set<string>, row: Row, reply: Reply)
    requires row.rtype in recordTypes
    ensures var e := RowStep(cfg, recordTypes, "update", row, reply);
            && e.sent == [Request(cfg.endpoint + "/editByNameType/" + cfg.domain + "/" + row.rtype + "/" + row.host,
                                  [("apikey", cfg.apikey), ("secretapikey", cfg.secretapikey), ("content", row.answer)])]
            && e.completion == Normal && |e.logged| == 1
  {
    var c := Credentials(cfg.apikey, cfg.secretapikey);
    assert c[0].0[0] == 'a' && c[1].0[0] == 's';
    AssignNew(c, "content", row.answer);
    assert c + [("content", row.answer)] == [("apikey", cfg.apikey), ("secretapikey", cfg.secretapikey),
                                             ("content", row.answer)];
  }

  /** A line logged after a post is at info level exactly for status 200, and
      holds record values only, never a credential. */
  lemma LoggedLine(reply: Reply, name: string, rtype: string, content: string)
    ensures var l := Logged(reply, name, rtype, content);
            (l.level == Info <==> reply == Status(200)) && CredentialFree(l.logged)
  {
    var all := [("record_name", name), ("record_type", rtype), ("record_content", content)];
    assert forall t :: 0 <= t < |all| ==> all[t].0[0] == 'r';
    Absent(all, "apikey");
    Absent(all, "secretapikey");
    Absent([("record_name", name)], "apikey");
    Absent([("record_name", name)], "secretapikey");
  }

  // ---------------------------------------------------------------------------
  // Batches

  /** The request a create or update row with a known type posts. */
  function RowRequest(cfg: Secrets, action: string, row: Row): Request {
    if action == "create" then
      Request(cfg.endpoint + "/create/" + cfg.domain,
              [("apikey", cfg.apikey), ("secretapikey", cfg.secretapikey),
               ("name", row.host), ("type", row.rtype), ("content", row.answer)])
    else
      Request(cfg.endpoint + "/editByNameType/" + cfg.domain + "/" + row.rtype + "/" + row.host,
              [("apikey", cfg.apikey), ("secretapikey", cfg.secretapikey), ("content", row.answer)])
  }

  /** A create or update row with a known type returns normally, posts its
      request and logs one line, at info level exactly for status 200. */
  lemma ValidRow(cfg: Secrets, recordTypes: set<string>, action: string, row: Row, reply: Reply)
    requires action == "create" || action == "update"
    requires row.rtype in recordTypes
    ensures var e := RowStep(cfg, recordTypes, action, row, reply);
            && e.completion == Normal && e.sent == [RowRequest(cfg, action, row)] && |e.logged| == 1
            && (e.logged[0].level == Info <==> reply == Status(200))
  {
    if action == "create" {
      CreateRecordRequest(cfg, recordTypes, row.host, row.rtype, row.answer, reply);
    } else {
      UpdateCallSiteMatches(cfg, recordTypes, row, reply);
    }
    LoggedLine(reply, row.host, row.rtype, row.answer);
  }

  /** A create or update batch whose first `n` record types are all known posts
      exactly one request for each of those rows, in row order, and returns
      normally whatever the replies: a connection failure on one row does not
      stop the next. */
  lemma ValidBatchSendsEveryRow(cfg: Secrets, recordTypes: set<string>, action: string,
                                rows: seq<Row>, replies: seq<Reply>, n: nat)
    requires action == "create" || action == "update"
    requires |replies| == |rows| && n <= |rows|
    requires forall i :: 0 <= i < n ==> rows[i].rtype in recordTypes
    ensures var t := RunTo(RowCall(cfg, recordTypes, action), (), rows, replies, n);
            && t.completion == Normal
            && |t.sent| == n && |t.logged| == n
            && (forall i :: 0 <= i < n ==> t.sent[i] == RowRequest(cfg, action, rows[i]))
            && (forall i :: 0 <= i < n ==> (t.logged[i].level == Info <==> replies[i] == Status(200)))
  {
    var call := RowCall(cfg, recordTypes, action);
    forall i | 0 <= i < n
      ensures var e := call((), rows[i], replies[i]);
              e.state == () && e.completion == Normal && |e.sent| == 1 && |e.logged| == 1
              && e.sent[0] == RowRequest(cfg, action, rows[i])
              && (e.logged[0].level == Info <==> replies[i] == Status(200))
    {
      ValidRow(cfg, recordTypes, action, rows[i], replies[i]);
    }
    RunSteady(call, (), rows, replies, n);
  }

  /** The type-check exception escapes `change_records`: when row `n` is the
      first with an unknown type, rows `0..n-1` post one request each, row `n`
      posts nothing and logs the type error, the batch raises
      `ConnectionError`, and rows after `n` are never attempted. */
  lemma InvalidTypeAbortsBatch(cfg: Secrets, recordTypes: set<string>, action: string,
                               rows: seq<Row>, replies: seq<Reply>, n: nat)
    requires action == "create" || action == "update"
    requires |replies| == |rows| && n < |rows|
    requires forall i :: 0 <= i < n ==> rows[i].rtype in recordTypes
    requires rows[n].rtype !in recordTypes
    ensures var t := Run(RowCall(cfg, recordTypes, action), (), rows, replies);
            && t.completion == Raised(ConnectionError)
            && |t.sent| == n
            && (forall i :: 0 <= i < n ==> t.sent[i] == RowRequest(cfg, action, rows[i]))
            && |t.logged| == n + 1 && t.logged[n] == LogEvent(Error, [])
  {
    var call := RowCall(cfg, recordTypes, action);
    forall i | 0 <= i < n
      ensures var e := call((), rows[i], replies[i]);
              e.state == () && e.completion == Normal && |e.sent| == 1 && |e.logged| == 1
              && e.sent[0] == RowRequest(cfg, action, rows[i])
    {
      ValidRow(cfg, recordTypes, action, rows[i], replies[i]);
    }
    InvalidTypeSendsNothing(cfg, recordTypes, action, rows[n], replies[n]);
    RunAbortsAt(call, (), rows, replies, n);
    var t := Run(call, (), rows, replies);
    assert t.logged[n] == t.logged[n..][0];
  }

  /** Any action other than create and update, `delete` included, posts nothing
      and logs one error per row, the loop running to the end. */
  lemma UnknownActionLogsEveryRow(cfg: Secrets, recordTypes: set<string>, action: string,
                                  rows: seq<Row>, replies: seq<Reply>)
    requires action != "create" && action != "update"
    requires |replies| == |rows|
    ensures var t := Run(RowCall(cfg, recordTypes, action), (), rows, replies);
            && t.completion == Normal && t.sent == [] && |t.logged| == |rows|
            && forall i :: 0 <= i < |rows| ==> t.logged[i] == LogEvent(Error, [("action", action)])
  {
    RunSilent(RowCall(cfg, recordTypes, action), (), rows, replies, |rows|);
  }

  /** Whatever the rows, action and replies, no line this handler logs carries
      a credential. */
  lemma LogsCarryNoCredentials(cfg: Secrets, recordTypes: set<string>, action: string,
                               rows: seq<Row>, replies: seq<Reply>)
    requires |replies| == |rows|
    ensures LogCredentialFree(Run(RowCall(cfg, recordTypes, action), (), rows, replies).logged)
  {
    var call := RowCall(cfg, recordTypes, action);
    Absent([("action", action)], "apikey");
    Absent([("action", action)], "secretapikey");
    Absent([], "apikey");
    Absent([], "secretapikey");
    forall u: (), i, j | 0 <= i < |rows| && 0 <= j < |call(u, rows[i], replies[i]).logged|
      ensures CredentialFree(call(u, rows[i], replies[i]).logged[j].logged)
    {
      LoggedLine(replies[i], rows[i].host, rows[i].rtype, rows[i].answer);
    }
    var ok := (e: LogEvent) => CredentialFree(e.logged);
    RunLogsAll(call, (), rows, replies, |rows|, ok);
    var log := RunTo(call, (), rows, replies, |rows|).logged;
    forall j | 0 <= j < |log|
      ensures CredentialFree(log[j].logged)
    {
      assert ok(log[j]);
    }
  }

  /** One row's call logs and returns the same under any API key and secret. */
  lemma RowIgnoresCredentials(cfg: Secrets, recordTypes: set<string>, action: string, row: Row, reply: Reply,
                              apikey: string, secretapikey: string)
    ensures var e := RowStep(cfg, recordTypes, action, row, reply);
            var d := RowStep(cfg.(apikey := apikey, secretapikey := secretapikey), recordTypes, action, row, reply);
            e.logged == d.logged && e.completion == d.completion && |e.sent| == |d.sent|
  {
  }

  /** The credential values never reach the log: the same rows, action and
      replies under any other API key and secret log exactly the same lines
      and end the same way. */
  lemma LogIgnoresCredentials(cfg: Secrets, recordTypes: set<string>, action: string,
                              rows: seq<Row>, replies: seq<Reply>, apikey: string, secretapikey: string)
    requires |replies| == |rows|
    ensures var t := Run(RowCall(cfg, recordTypes, action), (), rows, replies);
            var u := Run(RowCall(cfg.(apikey := apikey, secretapikey := secretapikey), recordTypes, action),
                         (), rows, replies);
            t.logged == u.logged && t.completion == u.completion && |t.sent| == |u.sent|
  {
    var other := cfg.(apikey := apikey, secretapikey := secretapikey);
    var f := RowCall(cfg, recordTypes, action);
    var g := RowCall(other, recordTypes, action);
    forall a: (), b: (), i | 0 <= i < |rows|
      ensures && f(a, rows[i], replies[i]).logged == g(b, rows[i], replies[i]).logged
              && f(a, rows[i], replies[i]).completion == g(b, rows[i], replies[i]).completion
              && |f(a, rows[i], replies[i]).sent| == |g(b, rows[i], replies[i]).sent|
    {
      RowIgnoresCredentials(cfg, recordTypes, action, rows[i], replies[i], apikey, secretapikey);
    }
    RunAgrees(f, g, (), (), rows, replies, |rows|);
  }

  /** A missing file posts nothing and logs one error. */
  lemma NothingPostedWhenFileMissing(cfg: Secrets, recordTypes: set<string>, domainDb: string,
                                     action: string, rows: seq<Row>, replies: seq<Reply>)
    requires |replies| == |rows|
    ensures var t := ChangeRecordsEffect(cfg, recordTypes, domainDb, true, action, rows, replies);
            t.sent == [] && t.logged == [LogEvent(Error, [("domain_db", domainDb)])] && t.completion == Normal
  {
  }
}
