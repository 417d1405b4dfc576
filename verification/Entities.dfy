/** The rows of the four application tables and the row-level rules written on them. */
module Entities {

  datatype Option<+T> = None | Some(value: T)

  const UUID_LIMIT: nat := 0x1_0000_0000_0000_0000_0000_0000_0000_0000

  /** A 128-bit identifier (documents, workspaces, jobs). */
  type Uuid = n: nat | n < UUID_LIMIT

  type Time = int

  /** Identity of data that may coexist in one derived index. */
  datatype Contract = Contract(schemaVersion: int, profile: string)

  datatype JobStatus = Pending | Running | Retry | Succeeded | Failed | Cancelled

  datatype JobKind = IndexDocument | DeleteDocument | ReindexDocument

  datatype ErrorCode = IndexingFailed | DependencyUnavailable | AttemptsExhausted | InternalError

  datatype Job = Job(
    document: Uuid,
    revision: int,
    kind: JobKind,
    status: JobStatus,
    attempts: int,
    maxAttempts: int,
    availableAt: Time,
    createdAt: Time,
    updatedAt: Time,
    leaseOwner: Option<string>,
    leaseExpiresAt: Option<Time>,
    heartbeatAt: Option<Time>,
    startedAt: Option<Time>,
    finishedAt: Option<Time>,
    errorCode: Option<ErrorCode>,
    errorDetail: Option<string>)

  datatype DocumentStatus = Uploaded | Indexing | Ready | Updating | Deleting | Deleted | Failed

  datatype Revision = Revision(
    objectKey: string,
    contentHash: string,
    createdAt: Time,
    parserVersion: int,
    chunkVersion: int,
    indexVersion: int,
    requiresReindex: bool)

  /** A documents row together with its document_revisions rows, keyed by revision number. */
  datatype Document = Document(
    workspace: Uuid,
    status: DocumentStatus,
    active: Option<int>,
    revisions: map<int, Revision>)

  datatype Workspace = Workspace(isActive: bool, contract: Contract)

  datatype Tables = Tables(
    jobs: map<Uuid, Job>,
    documents: map<Uuid, Document>,
    workspaces: map<Uuid, Workspace>)

  // ----- job rows

  predicate Active(j: Job) {
    j.status.Pending? || j.status.Running? || j.status.Retry?
  }

  predicate Terminal(j: Job) {
    j.status.Succeeded? || j.status.Failed? || j.status.Cancelled?
  }

  lemma ActiveIsNotTerminal(j: Job)
    ensures Active(j) <==> !Terminal(j)
  {}

  /** The table of moves the domain model allows. */
  predicate MayMove(current: JobStatus, target: JobStatus) {
    match current
    case Pending => target.Running? || target.Cancelled?
    case Running => target.Retry? || target.Succeeded? || target.Failed? || target.Cancelled?
    case Retry => target.Running? || target.Cancelled?
    case _ => false
  }

  /** The white space that `str.strip` removes and `\s` matches. */
  predicate IsSpace(c: nat) {
    0x09 <= c <= 0x0D || 0x1C <= c <= 0x20 || c == 0x85 || c == 0xA0 || c == 0x1680
    || 0x2000 <= c <= 0x200A || c == 0x2028 || c == 0x2029 || c == 0x202F || c == 0x205F || c == 0x3000
  }

  lemma AsciiSpacesAre(c: nat)
    requires c < 128
    ensures IsSpace(c) <==> c in {9, 10, 11, 12, 13, 28, 29, 30, 31, 32}
  {}

  /** `not owner.strip()` */
  predicate Blank(s: string) {
    forall i | 0 <= i < |s| :: IsSpace(s[i] as nat)
  }

  /** `btrim(owner) = ''`: only the space character is trimmed. */
  predicate OnlySpaces(s: string) {
    forall i | 0 <= i < |s| :: s[i] == ' '
  }

  predicate ValidOwner(owner: string) {
    !Blank(owner) && |owner| <= 128
  }

  function Or<T>(value: Option<T>, default: T): T {
    if value.Some? then value.value else default
  }

  /** The checks of the validated job snapshot, in the order the constructor makes them. */
  predicate ValidSnapshot(j: Job) {
    && j.revision > 0
    && j.maxAttempts > 0 && 0 <= j.attempts <= j.maxAttempts
    && j.updatedAt >= j.createdAt && j.availableAt >= j.createdAt
    && (j.attempts == 0 <==> j.startedAt.None?)
    && (j.status.Pending? ==> j.attempts == 0)
    && (j.status.Running? || j.status.Retry? || j.status.Succeeded? || j.status.Failed?
        ==> j.attempts != 0 && j.startedAt.Some?)
    && (j.startedAt.Some? ==> j.startedAt.value >= j.createdAt && j.updatedAt >= j.startedAt.value)
    && (if j.status.Running? then
          && j.leaseOwner.Some? && j.leaseExpiresAt.Some? && j.heartbeatAt.Some? && j.startedAt.Some?
          && ValidOwner(j.leaseOwner.value)
          && j.leaseExpiresAt.value > j.heartbeatAt.value
          && j.heartbeatAt.value >= j.startedAt.value
          && j.updatedAt >= j.heartbeatAt.value
        else
          j.leaseOwner.None? && j.leaseExpiresAt.None? && j.heartbeatAt.None?)
    && (Terminal(j) <==> j.finishedAt.Some?)
    && (j.status.Retry? ==> j.attempts < j.maxAttempts)
    && (j.errorCode.Some? ==> j.status.Retry? || j.status.Failed?)
    && j.errorDetail.None?
    && (j.finishedAt.Some? ==>
          && j.finishedAt.value >= Or(j.startedAt, j.createdAt)
          && j.updatedAt >= j.finishedAt.value)
  }

  /** The CHECK constraints of the jobs table, and the width of the owner column. */
  predicate SatisfiesChecks(j: Job) {
    && j.revision > 0
    && j.maxAttempts > 0 && 0 <= j.attempts <= j.maxAttempts
    && j.updatedAt >= j.createdAt && j.availableAt >= j.createdAt
    && (!j.status.Pending? || j.attempts == 0)
    && (!(j.status.Running? || j.status.Retry? || j.status.Succeeded? || j.status.Failed?)
        || (j.attempts > 0 && j.startedAt.Some?))
    && (j.startedAt.None? || j.startedAt.value >= j.createdAt)
    && (j.attempts == 0 <==> j.startedAt.None?)
    && ((&& j.status.Running? && j.attempts > 0
         && j.leaseOwner.Some? && !OnlySpaces(j.leaseOwner.value)
         && j.leaseExpiresAt.Some? && j.heartbeatAt.Some? && j.startedAt.Some?
         && j.leaseExpiresAt.value > j.heartbeatAt.value)
        || (!j.status.Running? && j.leaseOwner.None? && j.leaseExpiresAt.None? && j.heartbeatAt.None?))
    && (j.heartbeatAt.None? || (j.startedAt.Some? && j.heartbeatAt.value >= j.startedAt.value))
    && j.updatedAt >= Or(j.startedAt, j.createdAt) && j.updatedAt >= Or(j.heartbeatAt, j.createdAt)
    && (Terminal(j) <==> j.finishedAt.Some?)
    && (j.finishedAt.None? || j.finishedAt.value >= Or(j.startedAt, j.createdAt))
    && (j.finishedAt.None? || j.updatedAt >= j.finishedAt.value)
    && (!j.status.Retry? || j.attempts < j.maxAttempts)
    && (j.errorCode.None? || j.status.Retry? || j.status.Failed?)
    && j.errorDetail.None?
    && (j.leaseOwner.None? || |j.leaseOwner.value| <= 128)
  }

  /** The two row specifications differ only on an owner blank by a non-space character. */
  lemma RowSpecificationsAgree(j: Job)
    ensures ValidSnapshot(j) <==>
            SatisfiesChecks(j) && (j.leaseOwner.Some? ==> !Blank(j.leaseOwner.value))
  {
    if j.leaseOwner.Some? {
      var owner := j.leaseOwner.value;
      if OnlySpaces(owner) {
        assert Blank(owner);
      }
    }
  }

  /** A row the database accepts and the domain model refuses to load. */
  lemma TabOwnerSplitsTheSpecifications()
    ensures exists j: Job :: SatisfiesChecks(j) && !ValidSnapshot(j)
  {
    var owner := "\t";
    assert owner[0] != ' ';
    assert Blank(owner);
    var j := Job(0, 1, IndexDocument, Running, 1, 3, 0, 0, 0,
                 Some(owner), Some(1), Some(0), Some(0), None, None, None);
    assert SatisfiesChecks(j) && !ValidSnapshot(j);
  }

  // ----- document rows

  /** What the row trigger on document_revisions lets an UPDATE do. */
  predicate TriggerAllows(before: Revision, after: Revision) {
    && after.objectKey == before.objectKey
    && after.contentHash == before.contentHash
    && after.createdAt == before.createdAt
    && ((before.requiresReindex && !after.requiresReindex)
        || (&& after.parserVersion == before.parserVersion
            && after.chunkVersion == before.chunkVersion
            && after.indexVersion == before.indexVersion))
  }

  ghost predicate RevisionsUpTo(d: Document, n: int) {
    forall k :: k in d.revisions <==> 1 <= k <= n
  }

  lemma Pick<T>(s: set<T>) returns (x: T)
    requires s != {}
    ensures x in s
  {
    x :| x in s;
  }

  lemma {:induction false} SomeKeyIsGreatest(keys: set<int>)
    requires keys != {}
    ensures exists k :: k in keys && forall other | other in keys :: other <= k
  {
    var x := Pick(keys);
    if keys != {x} {
      SomeKeyIsGreatest(keys - {x});
      var y :| y in keys - {x} && forall other | other in keys - {x} :: other <= y;
      var k := if x > y then x else y;
      assert forall other | other in keys :: other in keys - {x} || other == x;
      assert k in keys && forall other | other in keys :: other <= k;
    } else {
      assert forall other | other in keys :: other <= x;
    }
  }

  /** `COALESCE(MAX(revision), 0)` */
  function MaxRevision(d: Document): (n: int)
    ensures d.revisions != map[] ==> n in d.revisions
    ensures forall k | k in d.revisions :: k <= n
  {
    if d.revisions == map[] then 0
    else
      assert d.revisions.Keys != {};
      SomeKeyIsGreatest(d.revisions.Keys);
      var k :| k in d.revisions.Keys && forall other | other in d.revisions.Keys :: other <= k;
      k
  }
}
