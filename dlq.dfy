/**
 * chalicelib/dlq.py: the dead-letter queue. The SQS client is foreign: the queue's
 * state is its cached URL and the requests it has sent that change the service;
 * every reply of the service is an input.
 */
module Dlq {
  import opened Wrappers
  import opened PyValue
  import opened Logging
  import opened Events
  import Config

  /** The requests that change the queue service. */
  datatype SqsRequest =
    | CreateQueue(name: string, queueAttributes: seq<(string, string)>)
    | SendMessage(url: string, body: Text, attributes: Value)

  function InfoLog(t: Text): seq<LogsRequest> {
    PutRequests(Config.LOG_GROUP, Config.INFO_LOG_STREAM, Msg(t))
  }

  function ErrorLog(t: Text): seq<LogsRequest> {
    PutRequests(Config.LOG_GROUP, Config.ERROR_LOG_STREAM, Msg(t))
  }

  /** The state the queue resolution leaves, with what it sent and logged, and whether it raised. */
  datatype Resolution = Resolution(url: Option<string>, sqs: seq<SqsRequest>, logs: seq<LogsRequest>,
                                   outcome: Outcome<Exc>)

  /**
   * `_create_queue_if_not_exists` and `_create_queue`: `listed` is what list_queues
   * returns (its QueueUrls, or the error it raises), `created` what create_queue
   * returns (the new queue's URL, or its error).
   */
  function ResolveEffect(listed: Result<seq<string>, Exc>, created: Result<string, Exc>): (r: Resolution)
    ensures listed.Success? && |listed.value| > 0 ==>
              r == Resolution(Some(listed.value[0]), [], [], Pass)
    ensures listed == Success([]) ==>
              r.sqs == [CreateQueue(Config.QUEUE_NAME, [])] && r.outcome == Pass &&
              (created.Success? ==> r.url == Some(created.value) && r.logs == InfoLog(QueueCreated(Config.QUEUE_NAME, created.value))) &&
              (created.Failure? ==> r.url == None && r.logs == ErrorLog(QueueCreateFailed(Config.QUEUE_NAME, created.error)))
    ensures listed.Failure? && listed.error.ClientError? ==>
              r == Resolution(None, [], ErrorLog(QueueNotFound(Config.QUEUE_NAME)), Pass)
    ensures listed.Failure? && !listed.error.ClientError? ==> r == Resolution(None, [], [], Fail(listed.error))
    ensures |r.logs| <= 1
  {
    match listed
    case Failure(e) =>
      if e.ClientError? then Resolution(None, [], ErrorLog(QueueNotFound(Config.QUEUE_NAME)), Pass)
      else Resolution(None, [], [], Fail(e))
    case Success(urls) =>
      if |urls| > 0 then Resolution(Some(urls[0]), [], [], Pass)
      else match created
        case Success(url) =>
          Resolution(Some(url), [CreateQueue(Config.QUEUE_NAME, [])], InfoLog(QueueCreated(Config.QUEUE_NAME, url)), Pass)
        case Failure(e) =>
          Resolution(None, [CreateQueue(Config.QUEUE_NAME, [])], ErrorLog(QueueCreateFailed(Config.QUEUE_NAME, e)), Pass)
  }

  /** The attributes `send` uses: the caller's, or `{}`. */
  function AttributesOrDefault(attributes: Option<Value>): Value {
    if attributes.Some? then attributes.value else JDict([])
  }

  /**
   * `send(message, attributes)` with the queue URL `url` and the reply `reply` of
   * send_message (the error it raises, if any): what it sends and what it logs.
   */
  function SendEffect(url: Option<string>, message: Value, attributes: Option<Value>, reply: Option<Exc>)
    : (r: (seq<SqsRequest>, seq<LogsRequest>))
    ensures |r.0| <= 1 && |r.1| == 1
    ensures r.0 != [] <==> url.Some? && Serializable(message)
    ensures r.0 != [] ==> r.0[0] == SendMessage(url.value, Dumped(message), AttributesOrDefault(attributes))
    ensures r.1 == InfoLog(SentToDlq(Config.QUEUE_NAME, message)) <==> r.0 != [] && reply.None?
    ensures r.1 != InfoLog(SentToDlq(Config.QUEUE_NAME, message)) ==> r.1[0].PutLogEvents? && r.1[0].stream == Config.ERROR_LOG_STREAM
  {
    if !Serializable(message) then ([], ErrorLog(DlqSendFailed(Config.QUEUE_NAME, TYPE_ERROR)))
    else if url.None? then ([], ErrorLog(DlqSendFailed(Config.QUEUE_NAME, PARAM_VALIDATION_ERROR)))
    else
      var rq := [SendMessage(url.value, Dumped(message), AttributesOrDefault(attributes))];
      if reply.None? then (rq, InfoLog(SentToDlq(Config.QUEUE_NAME, message)))
      else (rq, ErrorLog(DlqSendFailed(Config.QUEUE_NAME, reply.value)))
  }

  class DeadLetterQueue {
    const queueName: string := Config.QUEUE_NAME
    const logger: EventLogger
    /** The cached URL of the queue, once resolved. */
    var queueUrl: Option<string>
    /** The requests sent to the queue service, oldest first. */
    var requests: seq<SqsRequest>

    /** `DeadLetterQueue(sqs, event_logger)` before `_create_queue_if_not_exists` runs. */
    constructor (logger: EventLogger)
      ensures this.logger == logger && queueName == Config.QUEUE_NAME
      ensures queueUrl == None && requests == []
    {
      this.logger := logger;
      queueUrl := None;
      requests := [];
    }

    /**
     * `_create_queue_if_not_exists` (chalicelib/dlq.py:19-29): reuse the first listed
     * queue or create one. Only an error that is not a ClientError escapes.
     */
    method CreateQueueIfNotExists(listed: Result<seq<string>, Exc>, created: Result<string, Exc>)
      returns (r: Outcome<Exc>)
      requires queueUrl == None
      modifies this`queueUrl, this`requests, logger`requests
      ensures var eff := ResolveEffect(listed, created);
              queueUrl == eff.url && requests == old(requests) + eff.sqs &&
              logger.requests == old(logger.requests) + eff.logs && r == eff.outcome
    {
      r := Pass;
      match listed
      case Failure(e) =>
        if e.ClientError? {
          var logged := logger.Error(Msg(QueueNotFound(queueName)));
          assert logged.Pass?;
        } else {
          r := Fail(e);
        }
      case Success(urls) =>
        if |urls| > 0 {
          queueUrl := Some(urls[0]);
        } else {
          CreateTheQueue(created);
        }
    }

    /** `_create_queue`: a failure is logged and not raised. */
    method CreateTheQueue(created: Result<string, Exc>)
      modifies this`queueUrl, this`requests, logger`requests
      ensures requests == old(requests) + [CreateQueue(Config.QUEUE_NAME, [])]
      ensures created.Success? ==>
                queueUrl == Some(created.value) &&
                logger.requests == old(logger.requests) + InfoLog(QueueCreated(queueName, created.value))
      ensures created.Failure? ==>
                queueUrl == old(queueUrl) &&
                logger.requests == old(logger.requests) + ErrorLog(QueueCreateFailed(queueName, created.error))
    {
      requests := requests + [CreateQueue(queueName, [])];
      match created
      case Success(url) =>
        queueUrl := Some(url);
        var logged := logger.Info(Msg(QueueCreated(queueName, url)));
        assert logged.Pass?;
      case Failure(e) =>
        var logged := logger.Error(Msg(QueueCreateFailed(queueName, e)));
        assert logged.Pass?;
    }

    /** `send` (chalicelib/dlq.py:47-65): never raises; logs one info or one error event. */
    method Send(message: Value, attributes: Option<Value>, reply: Option<Exc>)
      modifies this`requests, logger`requests
      ensures var eff := SendEffect(queueUrl, message, attributes, reply);
              requests == old(requests) + eff.0 && logger.requests == old(logger.requests) + eff.1
    {
      var attrs := if attributes.None? then JDict([]) else attributes.value;
      if !Serializable(message) {
        var logged := logger.Error(Msg(DlqSendFailed(queueName, TYPE_ERROR)));
        assert logged.Pass?;
      } else if queueUrl.None? {
        var logged := logger.Error(Msg(DlqSendFailed(queueName, PARAM_VALIDATION_ERROR)));
        assert logged.Pass?;
      } else {
        requests := requests + [SendMessage(queueUrl.value, Dumped(message), attrs)];
        if reply.None? {
          var logged := logger.Info(Msg(SentToDlq(queueName, message)));
          assert logged.Pass?;
        } else {
          var logged := logger.Error(Msg(DlqSendFailed(queueName, reply.value)));
          assert logged.Pass?;
        }
      }
    }
  }
}
