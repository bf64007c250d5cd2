/**
 * chalicelib/persistence.py: the users table. DynamoDB is foreign: the table's state
 * is its handle (set by `exists` and `create_table`) and the requests it has sent that
 * change the service; every reply of the service is an input.
 */
module Persistence {
  import opened Wrappers
  import opened PyValue
  import opened Logging
  import opened Tables
  import opened Events
  import Config

  class UsersTable {
    const tableName: string := Config.USERS_TABLE
    const logger: EventLogger
    /** `self.table`: the handle of the table, None until `exists` or `create_table` sets it. */
    var table: Option<string>
    /** The requests sent to DynamoDB, oldest first. */
    var requests: seq<DynamoRequest>

    /** `UsersTable(dynamo_resource, event_logger)`: the table "users", no handle yet. */
    constructor (logger: EventLogger)
      ensures this.logger == logger && tableName == Config.USERS_TABLE
      ensures table == None && requests == []
    {
      this.logger := logger;
      table := None;
      requests := [];
    }

    /** `exists`, given the error `table.load()` raises (None when it loads). */
    method Exists(load: Option<Exc>) returns (r: Result<bool, Exc>)
      modifies this`table, logger`requests
      ensures var eff := ExistsEffect(Current, tableName, load);
              table == Some(tableName) && r == eff.result &&
              logger.requests == old(logger.requests) + ErrorLogged(eff.errorEvent)
    {
      table := Some(tableName);
      match load
      case None =>
        r := Success(true);
      case Some(e) =>
        if !e.ClientError? {
          r := Failure(e);
        } else if e.code == RESOURCE_NOT_FOUND {
          r := Success(false);
        } else {
          var logged := logger.Error(ClientErrorEvent(Current, "Could not check for existence of " + tableName, e));
          assert logged.Pass?;
          r := Failure(e);
        }
    }

    /**
     * `create_table`, given the errors of `create_table` and `wait_until_exists`. The
     * handle is set as soon as the create call returns, even when waiting then fails.
     */
    method CreateTable(create: Option<Exc>, wait: Option<Exc>) returns (r: Result<(), Exc>)
      modifies this`table, this`requests, logger`requests
      ensures var eff := CreateEffect(tableName, create, wait);
              requests == old(requests) + [CreateRequest(tableName)] &&
              table == (if create.None? then Some(tableName) else old(table)) &&
              r == eff.result && logger.requests == old(logger.requests) + ErrorLogged(eff.errorEvent)
    {
      requests := requests + [CreateRequest(tableName)];
      var failure := create;
      if create.None? {
        table := Some(tableName);
        failure := wait;
      }
      if failure.Some? {
        var logged := logger.Error(Msg(CreateTableFailed(tableName, failure.value)));
        assert logged.Pass?;
        r := Failure(failure.value);
      } else {
        r := Success(());
      }
    }

    /**
     * `add_elements`, given the error the batch write raises (None when it succeeds):
     * serialize and put each element, flush, and log the outcome; it never raises.
     */
    method AddElements(elements: Value, write: Option<Exc>)
      modifies this`requests, logger`requests
      ensures var eff := AddEffect(tableName, table, elements, write);
              requests == old(requests) + eff.writes && logger.requests == old(logger.requests) + Sent(eff.channel, eff.event)
    {
      if table.None? {
        var logged := logger.Error(Msg(SaveFailed(tableName, ATTRIBUTE_ERROR)));
        return;
      }
      var iterated := Iter(elements);
      if iterated.Failure? {
        var logged := logger.Error(Msg(SaveFailed(tableName, iterated.error)));
        return;
      }
      var put, failure := SerializeBatch(iterated.value);
      // Leaving the `with` block flushes what was put, whether or not serializing failed.
      var raised := failure;
      if put != [] {
        requests := requests + [BatchWrite(tableName, put)];
        if write.Some? {
          raised := write;
        }
      }
      if raised.None? {
        var logged := logger.Info(Msg(SavedInto(Len(elements), tableName)));
      } else {
        var logged := logger.Error(Msg(SaveFailed(tableName, raised.value)));
      }
    }

    /**
     * `get_elements`, given the replies of the scans; `scans` are the start keys the
     * scans send. A ClientError is logged and gives [].
     */
    method GetElements(replies: seq<ScanReply>) returns (r: Result<seq<Value>, Exc>, scans: seq<Option<Value>>)
      requires table.Some? ==> Stop(replies) < |replies|
      modifies logger`requests
      ensures var eff := GetEffect(Current, tableName, table, replies);
              r == eff.result && logger.requests == old(logger.requests) + ErrorLogged(eff.errorEvent)
      ensures scans == if table.Some? then Scans(replies) else []
    {
      scans := [];
      if table.None? {
        r := Failure(ATTRIBUTE_ERROR);
        return;
      }
      var scanned;
      scanned, scans := ScanPages(replies);
      if scanned.Failure? && scanned.error.ClientError? {
        var logged := logger.Error(ClientErrorEvent(Current, "Couldn't get elements from table " + tableName, scanned.error));
        assert logged.Pass?;
        r := Success([]);
      } else {
        r := scanned;
      }
    }
  }
}
