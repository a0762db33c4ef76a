// The rows of the service's database (models.py) and the store that holds them.
// Tables that only ever grow are sequences, and a row's id is its position, which is
// what a fresh UUID amounts to.  File rows are deleted by the retention job, so a file
// table slot can be empty again.
module Model {

  datatype Option<+T> = None | Some(value: T)

  datatype Error =
    | ValueError
    | InsufficientBudget(requested: int, available: int)
    | InvalidRequest
    | Conflict
    | NotFound

  datatype Result<+T> = Ok(value: T) | Err(error: Error)

  type UserId = nat

  // Microseconds; every timestamp in the service is a UTC datetime.
  type Time = int

  const SECOND: Time := 1_000_000
  const DAY: Time := 86_400 * SECOND

  datatype Budget = Budget(granted: int, reserved: int, used: int) {
    function Available(): int { granted - reserved - used }
  }

  const EMPTY_BUDGET := Budget(0, 0, 0)

  datatype EntryType = GRANT | RESERVE | RELEASE | CHARGE | ADJUST

  datatype Entry = Entry(
    user: UserId, kind: EntryType,
    granted: int, reserved: int, used: int,
    batch: Option<nat>, task: Option<nat>)

  datatype TaskStatus = PENDING | RUNNING | COMPLETED | FAILED | CANCELLED

  datatype Task = Task(
    batch: nat, lineIndex: nat, customId: string,
    reserved: nat, promptEstimate: nat, maxTokens: nat,
    status: TaskStatus,
    promptTokens: Option<nat>, completionTokens: Option<nat>,
    response: Option<string>, error: Option<string>,
    attempts: nat, node: Option<string>,
    startedAt: Option<Time>, finishedAt: Option<Time>)
  {
    predicate Live() { status == PENDING || status == RUNNING }
    predicate Settled() { status == COMPLETED || status == FAILED }
  }

  datatype BatchStatus =
    | VALIDATING | IN_PROGRESS | FINALIZING
    | BATCH_COMPLETED | BATCH_FAILED | CANCELLING | BATCH_CANCELLED | EXPIRED

  datatype Batch = Batch(
    user: UserId, inputFile: nat,
    outputFile: Option<nat>, errorFile: Option<nat>,
    status: BatchStatus,
    reserved: nat, total: nat, completed: nat, failed: nat,
    createdAt: Time, inProgressAt: Option<Time>, expiresAt: Option<Time>,
    finalizingAt: Option<Time>, completedAt: Option<Time>, failedAt: Option<Time>,
    cancelledAt: Option<Time>, expiredAt: Option<Time>, purgedAt: Option<Time>)

  // A JSON field, as far as the validation in parse_batch_input can tell.
  // Python counts booleans as integers; a boolean max_tokens is IntField(0) or IntField(1).
  datatype StringField = StringField(s: string) | NotString
  datatype IntField = AbsentOrNull | IntField(n: int) | NotInt

  // Message content: plain text, a list of parts (with the text of those that have one), or neither.
  datatype Content = Text(text: string) | Parts(texts: seq<Option<string>>) | NoText
  datatype Message = Message(content: Content, name: StringField)
  datatype Messages = Messages(items: seq<Message>) | NotList
  datatype Body = Body(messages: Messages, maxTokens: IntField) | NotBody

  // One line of an uploaded input file, after JSON decoding.
  datatype RawLine =
    | Blank
    | InvalidJson
    | NotObject
    | Request(customId: StringField, httpMethod: StringField, url: StringField, body: Body)

  // One line of a result file.
  datatype ResultLine =
    | ResponseLine(taskId: nat, customId: string, body: Option<string>)
    | ErrorLine(taskId: nat, customId: string, message: string)

  datatype FileName = Uploaded | OutputOf(batch: nat) | ErrorsOf(batch: nat)

  datatype FileContent = Input(raw: seq<RawLine>) | Results(lines: seq<ResultLine>)

  datatype FilePurpose = BATCH_INPUT | BATCH_OUTPUT | BATCH_ERROR

  datatype FileRow = FileRow(owner: UserId, purpose: FilePurpose, name: FileName, content: FileContent)

  datatype NodeHealth = HEALTHY | UNHEALTHY | DISABLED

  datatype Node = Node(slots: int, health: NodeHealth, failures: nat)

  // The single "global" throughput row; absent and empty are the same thing here.
  datatype DispatchStat = DispatchStat(tps: Option<real>, avgCompletion: Option<real>, samples: nat)

  datatype Db = Db(
    budgets: map<UserId, Budget>,
    ledger: seq<Entry>,
    batches: seq<Batch>,
    tasks: seq<Task>,
    files: seq<Option<FileRow>>,
    nodes: map<string, Node>,
    stat: DispatchStat)

  const EMPTY_DB := Db(map[], [], [], [], [], map[], DispatchStat(None, None, 0))

  function BudgetOf(db: Db, u: UserId): Budget {
    if u in db.budgets then db.budgets[u] else EMPTY_BUDGET
  }

  // What the query for healthy nodes may return.
  predicate HealthyQuery(nodes: map<string, Node>, names: seq<string>) {
    && (forall k :: 0 <= k < |names| ==> names[k] in nodes && nodes[names[k]].health == HEALTHY)
    && (forall n :: n in nodes && nodes[n].health == HEALTHY ==> n in names)
    && (forall k, l :: 0 <= k < l < |names| ==> names[k] != names[l])
  }

  predicate OwnedBy(batches: seq<Batch>, b: nat, u: UserId) {
    b < |batches| && batches[b].user == u
  }

  datatype Settings = Settings(
    defaultMaxTokens: int,
    retentionDays: nat,
    unhealthyThreshold: nat,
    alpha: real,
    nodesConfigured: bool,
    minSamples: nat,
    bootstrapTps: real,
    bootstrapCompletion: real)

  ghost predicate ValidSettings(cfg: Settings) {
    && cfg.defaultMaxTokens > 0
    && cfg.unhealthyThreshold >= 1
    && 0.0 <= cfg.alpha <= 1.0
    && cfg.bootstrapTps > 0.0
    && cfg.bootstrapCompletion > 0.0
  }

  // The live database.  Snapshot is its committed contents as a value.
  class Store {
    var budgets: map<UserId, Budget>
    var ledger: seq<Entry>
    var batches: seq<Batch>
    var tasks: seq<Task>
    var files: seq<Option<FileRow>>
    var nodes: map<string, Node>
    var stat: DispatchStat

    function Snapshot(): Db
      reads this
    {
      Db(budgets, ledger, batches, tasks, files, nodes, stat)
    }

    constructor ()
      ensures Snapshot() == EMPTY_DB
    {
      budgets, ledger, batches, tasks, files, nodes := map[], [], [], [], [], map[];
      stat := DispatchStat(None, None, 0);
    }
  }
}
