/** The constants of chalicelib/config.py, and the fixed names the components use. */
module Config {

  const USERS_ENDPOINT: string := "https://random-data-api.com/api/v2/users"
  const API_CALLS_PER_MINUTE: int := 75
  const RETENTION_PERIOD_IN_DAYS: int := 30
  const LOG_GROUP: string := "DailyAIDataFetcher"
  const ERROR_LOG_STREAM: string := "Error"
  const STATUS_LOG_STREAM: string := "Status"
  const INFO_LOG_STREAM: string := "Info"

  /** Inclusive range of the `size` parameter drawn for each API call. */
  const MIN_USERS_PER_API_CALL: int := 1
  const MAX_USERS_PER_API_CALL: int := 150

  /** Inclusive range of the number of API calls drawn for each fetch. */
  const MIN_CALLS_PER_FETCH: int := 1
  const MAX_CALLS_PER_FETCH: int := 20

  /** The message of the upstream API's HTTP-200 "page too large" reply. */
  const SIZE_SENTINEL: string := "Maximum allowed size is 100"

  /** The queue name of the dead-letter queue and the table name of the users table. */
  const QUEUE_NAME: string := "dlq"
  const USERS_TABLE: string := "users"
}
