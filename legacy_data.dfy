/**
 * data.py: the earlier users table. It has the same schema, `serialize` hook and
 * control flow as the current one (module Tables holds what they share), but logs its
 * ClientErrors with the error code and message as extra keys of the event, which the
 * earlier logger passes to `put_log_events` unchanged.
 */
module LegacyData {
  import opened Wrappers
  import opened PyValue
  import opened Logging
  import opened Tables
  import opened LegacyLogs
  import Config

  class UsersTable {
    const tableName: string := Config.USERS_TABLE
    const logger: EventLogger
    /** `self.table`: the handle of the table, None until `exists` or `create_table` sets it. */
    var table: Option<string>
    /** The requests sent to DynamoDB, oldest first. */
    var requests: seq<DynamoRequest>

    /** `UsersTable(dynamo_resource, event_logger)`: the table "users", no handle yet. */
    constructor (logger: EventLogger)
      ensures this.logger == logger && tableName == Config.USERS_TABLE
      ensures table == None && requests == []
    {
      this.logger := logger;
      table := None;
      requests := [];
    }

    /**
     * `exists`, given the error `table.load()` raises (None when it loads). Logging a
     * ClientError raises inside the except block, and that error escapes instead.
     */
    method Exists(load: Option<Exc>) returns (r: Result<bool, Exc>)
      modifies this`table, logger`requests
      ensures var eff := ExistsEffect(Earlier, tableName, load);
              table == Some(tableName) && r == eff.result &&
              logger.requests == old(logger.requests) + ErrorLogged(logger.names, eff.errorEvent)
    {
      table := Some(tableName);
      match load
      case None =>
        r := Success(true);
      case Some(e) =>
        if !e.ClientError? {
          r := Failure(e);
        } else if e.code == RESOURCE_NOT_FOUND {
          r := Success(false);
        } else {
          var logged := logger.Error(ClientErrorEvent(Earlier, "Could not check for existence of " + tableName, e));
          r := Failure(if logged.Fail? then logged.error else e);
        }
    }

    /**
     * `create_table`, given the errors of `create_table` and `wait_until_exists`. The
     * handle is set as soon as the create call returns, even when waiting then fails.
     */
    method CreateTable(create: Option<Exc>, wait: Option<Exc>) returns (r: Result<(), Exc>)
      modifies this`table, this`requests, logger`requests
      ensures var eff := CreateEffect(tableName, create, wait);
              requests == old(requests) + [CreateRequest(tableName)] &&
              table == (if create.None? then Some(tableName) else old(table)) &&
              r == eff.result && logger.requests == old(logger.requests) + ErrorLogged(logger.names, eff.errorEvent)
    {
      requests := requests + [CreateRequest(tableName)];
      var failure := create;
      if create.None? {
        table := Some(tableName);
        failure := wait;
      }
      if failure.Some? {
        var logged := logger.Error(Msg(CreateTableFailed(tableName, failure.value)));
        assert logged.Pass?;
        r := Failure(failure.value);
      } else {
        r := Success(());
      }
    }

    /**
     * `add_elements`, given the error the batch write raises (None when it succeeds):
     * serialize and put each element, flush, and log the outcome; it never raises.
     */
    method AddElements(elements: Value, write: Option<Exc>)
      modifies this`requests, logger`requests
      ensures var eff := AddEffect(tableName, table, elements, write);
              requests == old(requests) + eff.writes &&
              logger.requests == old(logger.requests) + Sent(logger.names, eff.channel, eff.event)
    {
      if table.None? {
        var logged := logger.Error(Msg(SaveFailed(tableName, ATTRIBUTE_ERROR)));
        return;
      }
      var iterated := Iter(elements);
      if iterated.Failure? {
        var logged := logger.Error(Msg(SaveFailed(tableName, iterated.error)));
        return;
      }
      var put, failure := SerializeBatch(iterated.value);
      // Leaving the `with` block flushes what was put, whether or not serializing failed.
      var raised := failure;
      if put != [] {
        requests := requests + [BatchWrite(tableName, put)];
        if write.Some? {
          raised := write;
        }
      }
      if raised.None? {
        var logged := logger.Info(Msg(SavedInto(Len(elements), tableName)));
      } else {
        var logged := logger.Error(Msg(SaveFailed(tableName, raised.value)));
      }
    }

    /**
     * `get_elements`, given the replies of the scans; `scans` are the start keys the
     * scans send. Logging a ClientError raises inside the except block, so the error of
     * the logger escapes instead of [] being returned.
     */
    method GetElements(replies: seq<ScanReply>) returns (r: Result<seq<Value>, Exc>, scans: seq<Option<Value>>)
      requires table.Some? ==> Stop(replies) < |replies|
      modifies logger`requests
      ensures var eff := GetEffect(Earlier, tableName, table, replies);
              r == eff.result && logger.requests == old(logger.requests) + ErrorLogged(logger.names, eff.errorEvent)
      ensures scans == if table.Some? then Scans(replies) else []
    {
      scans := [];
      if table.None? {
        r := Failure(ATTRIBUTE_ERROR);
        return;
      }
      var scanned;
      scanned, scans := ScanPages(replies);
      if scanned.Failure? && scanned.error.ClientError? {
        var logged := logger.Error(ClientErrorEvent(Earlier, "Couldn't get elements from table " + tableName,
                                                    scanned.error));
        r := if logged.Fail? then Failure(logged.error) else Success([]);
      } else {
        r := scanned;
      }
    }
  }

  /**
   * `exists` on a ClientError other than ResourceNotFoundException: as written, the
   * event is rejected, nothing is logged and the logger's ParamValidationError escapes;
   * the current revision logs one event and re-raises the ClientError.
   */
  lemma {:induction false} ExistsLosesClientError(names: LogNames, e: Exc)
    requires e.ClientError? && e.code != RESOURCE_NOT_FOUND
    ensures var eff := ExistsEffect(Earlier, Config.USERS_TABLE, Some(e));
            eff.result == Failure(PARAM_VALIDATION_ERROR) && ErrorLogged(names, eff.errorEvent) == []
    ensures var eff := ExistsEffect(Current, Config.USERS_TABLE, Some(e));
            eff.result == Failure(e) && |ErrorLogged(names, eff.errorEvent)| == 1
  {
    var text := "Could not check for existence of " + Config.USERS_TABLE;
    assert ExistsEffect(Earlier, Config.USERS_TABLE, Some(e)).errorEvent == Some(ClientErrorEvent(Earlier, text, e));
    assert ExistsEffect(Current, Config.USERS_TABLE, Some(e)).errorEvent == Some(ClientErrorEvent(Current, text, e));
  }

  /**
   * `get_elements` when a scan raises a ClientError: as written, nothing is logged and
   * the logger's ParamValidationError escapes; the current revision logs one event and
   * returns [].
   */
  lemma {:induction false} GetElementsRaisesOnClientError(names: LogNames, replies: seq<ScanReply>)
    requires Stop(replies) < |replies| && replies[Stop(replies)].ScanFailed?
    requires replies[Stop(replies)].error.ClientError?
    ensures var eff := GetEffect(Earlier, Config.USERS_TABLE, Some(Config.USERS_TABLE), replies);
            eff.result == Failure(PARAM_VALIDATION_ERROR) && ErrorLogged(names, eff.errorEvent) == []
    ensures var eff := GetEffect(Current, Config.USERS_TABLE, Some(Config.USERS_TABLE), replies);
            eff.result == Success([]) && |ErrorLogged(names, eff.errorEvent)| == 1
  {
    var e := replies[Stop(replies)].error;
    var text := "Couldn't get elements from table " + Config.USERS_TABLE;
    assert ScanResult(replies) == Failure(e);
    assert GetEffect(Earlier, Config.USERS_TABLE, Some(Config.USERS_TABLE), replies).errorEvent
           == Some(ClientErrorEvent(Earlier, text, e));
  }
}
