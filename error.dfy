/**
 * The application error type (`AppError`), its display text, its
 * classification into retryable and user-facing errors, the connection
 * error with a hint, and the form in which an error is sent to the UI.
 */
module Errors {
  import opened Strings

  /**
   * One variant per `AppError` case. The wrapped I/O, JSON and TOML errors
   * of the source are foreign types; here they carry their display text.
   */
  datatype AppError =
    | Config(msg: string)
    | ConfigWatch(msg: string)
    | Connection(msg: string)
    | Pool(msg: string)
    | Query(msg: string)
    | DatabaseNotConnected
    | DataProcessing(msg: string)
    | Validation(msg: string)
    | NotFound(msg: string)
    | Io(msg: string)
    | Json(msg: string)
    | TomlParse(msg: string)
    | TomlSerialize(msg: string)
    | Internal(msg: string)

  /** `AppResult<T>`. */
  datatype Result<+T> = Ok(value: T) | Err(error: AppError) {
    predicate IsFailure() { Err? }
    function PropagateFailure<U>(): Result<U> requires Err? { Err(error) }
    function Extract(): T requires Ok? { value }
  }

  /** The fixed prefix of each variant's display text (`#[error(...)]`). */
  function Prefix(e: AppError): string {
    match e
    case Config(_) => "配置错误: "
    case ConfigWatch(_) => "配置文件监听错误: "
    case Connection(_) => "数据库连接错误: "
    case Pool(_) => "连接池错误: "
    case Query(_) => "查询执行错误: "
    case DatabaseNotConnected => "数据库未连接"
    case DataProcessing(_) => "数据处理错误: "
    case Validation(_) => "验证错误: "
    case NotFound(_) => "未找到: "
    case Io(_) => "IO 错误: "
    case Json(_) => "JSON 序列化错误: "
    case TomlParse(_) => "TOML 解析错误: "
    case TomlSerialize(_) => "TOML 序列化错误: "
    case Internal(_) => "内部错误: "
  }

  /** `err.to_string()`: the prefix followed by the wrapped message. */
  function ToString(e: AppError): (r: string)
    ensures !e.DatabaseNotConnected? ==> Contains(r, e.msg)
    ensures IsPrefix(Prefix(e), r)
  {
    if e.DatabaseNotConnected? then Prefix(e)
    else
      ContainsMiddle(Prefix(e), e.msg, "");
      assert Prefix(e) + e.msg + "" == Prefix(e) + e.msg;
      Prefix(e) + e.msg
  }

  /** `is_retryable`: only connection and pool failures are worth retrying. */
  predicate IsRetryable(e: AppError) {
    e.Connection? || e.Pool?
  }

  /** `is_user_facing`: the errors whose message is meant for the user. */
  predicate IsUserFacing(e: AppError) {
    e.Config? || e.Connection? || e.Validation? || e.NotFound?
  }

  /** The friendly hint `connection_with_hint` picks, in its order of priority. */
  datatype Hint = MissingDatabase | BadCredentials | LoginFailed | Generic

  function HintFor(err: string): (h: Hint)
    ensures h == MissingDatabase <==> Contains(err, "4060")
    ensures h == BadCredentials <==> !Contains(err, "4060") && Contains(err, "18456")
    ensures h == LoginFailed <==>
      !Contains(err, "4060") && !Contains(err, "18456") && Contains(err, "Login failed")
  {
    if Contains(err, "4060") then MissingDatabase
    else if Contains(err, "18456") then BadCredentials
    else if Contains(err, "Login failed") then LoginFailed
    else Generic
  }

  /**
   * `connection_with_hint(err, database)`: always a Connection error whose
   * message starts with the hint chosen by HintFor and ends with the
   * original driver text.
   */
  function ConnectionWithHint(err: string, database: string): (r: AppError)
    ensures r.Connection?
    ensures Contains(r.msg, err)
    ensures HintFor(err) == MissingDatabase ==> Contains(r.msg, database)
    ensures IsPrefix(HintText(HintFor(err), database), r.msg)
  {
    HintedMessageFacts(HintFor(err), err, database);
    Connection(HintText(HintFor(err), database) + err)
  }

  lemma HintedMessageFacts(h: Hint, err: string, database: string)
    ensures Contains(HintText(h, database) + err, err)
    ensures h == MissingDatabase ==> Contains(HintText(h, database) + err, database)
  {
    var head := HintText(h, database);
    ContainsMiddle(head, err, "");
    assert head + err + "" == head + err;
    if h == MissingDatabase {
      var tail := "' 不存在或无访问权限。请检查数据库名称是否正确。原始错误: " + err;
      ContainsMiddle("数据库 '", database, tail);
      assert "数据库 '" + database + tail == head + err;
    }
  }

  function HintText(h: Hint, database: string): string {
    match h
    case MissingDatabase => "数据库 '" + database + "' 不存在或无访问权限。请检查数据库名称是否正确。原始错误: "
    case BadCredentials => "用户名或密码错误。原始错误: "
    case LoginFailed => "登录失败，请检查用户名和密码。原始错误: "
    case Generic => "SQL Server 连接失败: "
  }

  /** The JSON object `{"error": ..., "retryable": ...}` the UI receives. */
  datatype ErrorPayload = ErrorPayload(error: string, retryable: bool)

  function Serialize(e: AppError): (p: ErrorPayload)
    ensures p.error == ToString(e)
    ensures p.retryable == IsRetryable(e)
  {
    ErrorPayload(ToString(e), IsRetryable(e))
  }

  /** Hinted connection errors are retryable and shown to the user. */
  lemma HintedErrorIsRetryableAndUserFacing(err: string, database: string)
    ensures IsRetryable(ConnectionWithHint(err, database))
    ensures IsUserFacing(ConnectionWithHint(err, database))
    ensures Serialize(ConnectionWithHint(err, database)).retryable
  {
  }

  /** A retryable error is user-facing exactly when it is not a pool error. */
  lemma RetryableUserFacing(e: AppError)
    requires IsRetryable(e)
    ensures IsUserFacing(e) <==> !e.Pool?
  {
  }

  /** The payload of any error with a message embeds that message. */
  lemma PayloadCarriesMessage(e: AppError)
    requires !e.DatabaseNotConnected?
    ensures Contains(Serialize(e).error, e.msg)
  {
  }

  /** The source's test: "error 4060" gets the missing-database hint, "error 18456" the credentials hint. */
  lemma HintExamples()
    ensures HintFor("error 4060") == MissingDatabase
    ensures HintFor("error 18456") == BadCredentials
  {
    ContainsAt("error 4060", 6, "4060");
    ContainsAt("error 18456", 6, "18456");
    assert '0' in "4060" && '0' !in "error 18456";
    NotContainsMissingChar("error 18456", "4060", '0');
  }
}
