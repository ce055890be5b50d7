/**
 * The crash report after `json.load`, as a typed record holding only the
 * fields the normalization reads. A field read with `.get()` is an `Option`;
 * a field read by subscript is required and always present here. A value
 * the code only copies is kept as a JSON value; a value it computes with is
 * typed.
 */
module Reports {
  import opened Wrappers
  import opened Json

  datatype Report = Report(
    clientInfo: ClientInfo,
    serverInfo: ServerInfo,
    sessionInfo: SessionInfo,
    configInfo: ConfigInfo,
    errorInfo: ErrorInfo,
    infoBaseInfo: InfoBaseInfo,
    additionalData: Option<AdditionalData>,  // report.get('additionalData')
    time: Value)

  datatype ClientInfo = ClientInfo(
    platformType: string,
    appName: Value,
    systemInfo: SystemInfo)

  datatype SystemInfo = SystemInfo(
    clientID: Value,
    processor: Value,
    fullRAM: Value,
    freeRAM: Value,
    osVersion: string)

  datatype ServerInfo = ServerInfo(
    appVersion: Value,
    dbms: Value,
    serverType: Value)  // serverInfo['type']

  datatype SessionInfo = SessionInfo(
    userName: Option<string>,  // sessionInfo.get('userName')
    dataSeparation: string,
    configurationInterfaceLanguageCode: Value,
    platformInterfaceLanguageCode: Value,
    localeCode: Value)

  datatype ConfigInfo = ConfigInfo(
    name: Value,
    description: Value,
    version: Value,
    hash: Value,
    compatibilityMode: Value,
    changeEnabled: Value)

  datatype ErrorInfo = ErrorInfo(
    applicationErrorInfo: ApplicationErrorInfo,
    userDescription: Option<string>)  // errorInfo.get('userDescription')

  datatype ApplicationErrorInfo = ApplicationErrorInfo(
    errors: Option<seq<ErrorEntry>>,  // applicationErrorInfo.get('errors')
    stack: Option<seq<StackEntry>>)   // applicationErrorInfo.get('stack')

  /** One entry of `errors`: the pair `[text, [type, ...]]`. */
  datatype ErrorEntry = ErrorEntry(text: string, types: seq<string>)

  /**
   * One entry of `stack`: the triple `[function, line, context line]`. The
   * parser only copies the three positions, so each is kept as it came.
   */
  datatype StackEntry = StackEntry(functionName: Value, line: Value, contextLine: Value)

  datatype InfoBaseInfo = InfoBaseInfo(localeCode: Value)

  /**
   * `additionalData`. An empty dictionary and one without `EventLog` read
   * the same way, as `eventLog == None`.
   */
  datatype AdditionalData = AdditionalData(eventLog: Option<seq<LogEvent>>)  // .get('EventLog')

  datatype LogEvent = LogEvent(
    level: string,      // 'Level'
    eventName: string,  // 'EventName'
    meta: string,       // 'Meta'
    data: string,       // 'Data'
    comment: string,    // 'Comment'
    date: Value)        // 'Date'
}
