/** What the record handlers see of the outside world: the declaration rows,
    the HTTP oracle's answers, the requests posted and the calls to the logger. */
module Effects {
  import opened Dicts

  /** One row of the declaration file: its `host`, `type` and `answer` columns. */
  datatype Row = Row(host: string, rtype: string, answer: string)

  /** What `requests.post` does with one request: it returns a response with a
      status code, or it raises `requests.exceptions.ConnectionError`. */
  datatype Reply = Status(code: int) | ConnectionFailure

  datatype Level = Info | Error

  /** A POST as it left the process: the URL and the JSON body's entries. */
  datatype Request = Request(url: string, body: seq<Item>)

  /** A call to the logger: its level and the dict or values passed to it as
      arguments (not the text the logger formats from them). */
  datatype LogEvent = LogEvent(level: Level, logged: seq<Item>)

  /** The Python exceptions that can leave a handler method. */
  datatype Exception = KeyError | ConnectionError

  /** How a method returned: normally, or by raising. */
  datatype Completion = Normal | Raised(exc: Exception)

  /** The provider's credentials, as the request bodies carry them. */
  function Credentials(apikey: string, secretapikey: string): seq<Item> {
    [("apikey", apikey), ("secretapikey", secretapikey)]
  }

  /** Neither credential key appears among `items`. */
  predicate CredentialFree(items: seq<Item>) {
    !HasKey(items, "apikey") && !HasKey(items, "secretapikey")
  }

  /** No call to the logger is handed a credential key. */
  predicate LogCredentialFree(log: seq<LogEvent>) {
    forall i :: 0 <= i < |log| ==> CredentialFree(log[i].logged)
  }

  /** The network and the module-level logger: every request posted and every
      call to the logger, in order. */
  class World {
    ghost var sent: seq<Request>
    ghost var log: seq<LogEvent>

    constructor ()
      ensures sent == [] && log == []
    {
      sent := [];
      log := [];
    }

    /** `requests.post(url, data=json.dumps(body))`; its answer is the caller's
        oracle value. */
    method Post(url: string, body: seq<Item>)
      modifies this
      ensures sent == old(sent) + [Request(url, body)] && log == old(log)
    {
      sent := sent + [Request(url, body)];
    }

    /** `logger.info(...)` or `logger.error(...)`. */
    method Log(level: Level, logged: seq<Item>)
      modifies this
      ensures log == old(log) + [LogEvent(level, logged)] && sent == old(sent)
    {
      log := log + [LogEvent(level, logged)];
    }
  }
}
