/**
 * The two validators on what a daemon sends: one on the raw frame, one on the
 * normalized envelope, and the mapping between them.
 */
module CellFrames {
  import opened Strings
  import opened CellJson
  import Features = CellFeatures

  const MAX_FRAME_BYTES := 256 * 1024
  const MAX_ERROR_CHARS := 4096
  const MAX_ERROR_CODE_CHARS := 64
  const MAX_LOGS_CHARS := 200 * 1024
  const MAX_CAPABILITIES_BYTES := 96 * 1024
  const MAX_REPO_READ_BYTES := 128 * 1024
  const MAX_REPO_READ_ENTRIES := 256
  const MAX_REPO_READ_PATHS := 16
  const MAX_BRANCH_CHARS := 255
  const MAX_PATH_ENTRIES := 256
  const MAX_RESULT_BYTES := 64 * 1024
  const SAFE: nat := 0x20_0000_0000_0000

  // ---------------------------------------------------------------- messages

  datatype Kind =
    | Hello | Heartbeat | AddressesResult | ManagedLogsResult | ManagedHealthResult | ManagedPermissionsResult
    | ServerNetworkCheckResult | DevHostStatus | DevHostActionResult | ContainerLogsResult | MetricsLiveStartResult
    | MetricsLiveStopResult | MetricsCapabilitiesResult | TopologyOverridesUpdateResult | CapabilityPlanUpdateResult
    | CapabilityPlanClearResult | DeployCancelResult | RepoReadResult | RepoDefaultBranchResult | ManagedHaEvent
    | ManagedHealthReport | FabricPeersReport | RepoKeyChanged | TopologyReport | AcmeIssuanceEvent
    | InstanceAcmeIssuanceEvent | AcmeIssueEvent | AcmeProofForwardReady | AcmeProofForwardFailed | BackupRunReport
    | BackupCopyReport | FabricPathsResult | DevSyncResult | TunnelTokenResult | PublicUrlsUpdateResult | UpdateResult
    | InstanceUpdateResult | UpdateProgress | CommandProgress | CommandAck | CommandOutcome
    | Unlisted(name: string)

  datatype Key =
    | Id | At | Ok | Error | Ips | Logs | Member | Permissions | Results | JobId | CommitSha | Files | Entries
    | DefaultBranch | Paths | Capabilities | Outcome | ErrorCode | UpgradeId | DaemonReceivedAt | DaemonRespondedAt
    | Result | FeatureList | Extra(name: string)

  type Fields = map<Key, Json>

  datatype Message = Message(kind: Kind, fields: Fields)

  /** The text of a frame after `JSON.parse`. */
  datatype Parsed = NotJson | NotRecord | Frame(message: Message)

  function Look(f: Fields, key: Key): Field {
    if key in f then Some(f[key]) else None
  }

  /**
   * What the platform and the checks outside this model contribute: among it
   * how a value that is no text converts to one, if it does, and how a text,
   * an array or an object compares with a number.
   */
  datatype Host = Host(
    isTime: string -> bool,
    utf8: string -> nat,
    asText: Json -> Option<string>,
    over: (Json, nat) -> Verdict,
    jsonBytes: Json -> nat,
    pathFine: Json -> bool,
    rest: (Kind, Fields) -> Issue,
    known: set<string>)

  /** Empty text has no bytes, and every size is a safe integer. */
  ghost predicate SoundHost(h: Host) {
    h.utf8("") == 0 && forall j :: h.jsonBytes(j) < SAFE
  }

  // ---------------------------------------------------------------- field checks

  /** A validator's answer: fine, a value this side does not know, or a fault. */
  datatype Issue = Fine | UnknownValue | Invalid

  function Then(a: Issue, b: Issue): Issue {
    if a.Fine? then b else a
  }

  function When(ok: bool): Issue {
    if ok then Fine else Invalid
  }

  predicate IsoTime(h: Host, f: Field) {
    IsText(f) && h.isTime(f.value.s)
  }

  predicate OptionalTime(h: Host, f: Field) {
    f.None? || IsoTime(h, f)
  }

  predicate OptionalText(f: Field, max: nat) {
    f.None? || (IsText(f) && |f.value.s| <= max)
  }

  predicate OptionalError(f: Field) {
    OptionalText(f, MAX_ERROR_CHARS)
  }

  /** `validateResultEnvelopeFields` */
  predicate BaseFine(h: Host, f: Fields) {
    BoundedId(Look(f, Id)) && IsoTime(h, Look(f, At)) && OptionalError(Look(f, Error))
  }

  predicate OkFine(h: Host, f: Fields) {
    BaseFine(h, f) && IsBool(Look(f, Ok))
  }

  function Member(item: Json, name: string): Field {
    if item.Obj? && name in item.fields then Some(item.fields[name]) else None
  }

  const PATH: string := "path"
  const FOUND: string := "found"
  const CONTENT: string := "content"

  /** `validateRepoReadFiles`, from the `bytes` already counted. */
  predicate FilesFine(h: Host, files: seq<Json>, bytes: nat)
    decreases |files|
  {
    if files == [] then true
    else
      var content := Member(files[0], CONTENT);
      && IsText(Member(files[0], PATH)) && IsBool(Member(files[0], FOUND))
      && (if content.None? then FilesFine(h, files[1..], bytes)
          else
            && IsText(content) && bytes + h.utf8(content.value.s) <= MAX_REPO_READ_BYTES
            && FilesFine(h, files[1..], bytes + h.utf8(content.value.s)))
  }

  predicate FileListFine(h: Host, f: Field) {
    f.None? || (IsArray(f) && |f.value.items| <= MAX_REPO_READ_PATHS && FilesFine(h, f.value.items, 0))
  }

  predicate EntriesFine(f: Field) {
    f.None? || (IsArray(f) && |f.value.items| <= MAX_REPO_READ_ENTRIES)
  }

  predicate PathsFine(h: Host, f: Field) {
    IsArray(f) && |f.value.items| <= MAX_PATH_ENTRIES
    && forall i :: 0 <= i < |f.value.items| ==> h.pathFine(f.value.items[i])
  }

  predicate CapabilitiesFine(h: Host, f: Fields) {
    var c := Look(f, Capabilities);
    if c.None? then Look(f, Ok) != Some(Bool(true))
    else c.value.Obj? && h.jsonBytes(c.value) <= MAX_CAPABILITIES_BYTES
  }

  predicate OutcomeFine(h: Host, f: Fields) {
    OkFine(h, f) && OptionalTime(h, Look(f, DaemonReceivedAt)) && OptionalTime(h, Look(f, DaemonRespondedAt))
  }

  /** `validateInboundMessageFields` */
  function FieldIssue(h: Host, kind: Kind, f: Fields): Issue {
    match kind
    case Hello =>
      Then(h.rest(kind, f - {FeatureList}), When(Look(f, FeatureList).None? || IsArray(Look(f, FeatureList))))
    case AddressesResult => When(BaseFine(h, f) && IsArray(Look(f, Ips)))
    case ManagedLogsResult | ContainerLogsResult =>
      When(BaseFine(h, f) && IsText(Look(f, Logs)) && |Look(f, Logs).value.s| <= MAX_LOGS_CHARS)
    case ManagedHealthResult | ManagedPermissionsResult | ServerNetworkCheckResult | DeployCancelResult =>
      Then(When(OkFine(h, f)), h.rest(kind, f))
    case DevHostActionResult => When(OkFine(h, f) && (Look(f, JobId).None? || BoundedId(Look(f, JobId))))
    case RepoReadResult => When(OkFine(h, f) && FileListFine(h, Look(f, Files)) && EntriesFine(Look(f, Entries)))
    case RepoDefaultBranchResult =>
      When(OkFine(h, f)
        && (Look(f, DefaultBranch) == Some(Null) || OptionalText(Look(f, DefaultBranch), MAX_BRANCH_CHARS)))
    case FabricPathsResult => When(BaseFine(h, f) && PathsFine(h, Look(f, Paths)))
    case DevSyncResult | TunnelTokenResult | PublicUrlsUpdateResult | MetricsLiveStartResult | MetricsLiveStopResult
      | TopologyOverridesUpdateResult | CapabilityPlanUpdateResult | CapabilityPlanClearResult => When(OkFine(h, f))
    case UpdateResult | InstanceUpdateResult =>
      When(OkFine(h, f) && (Look(f, UpgradeId).None? || BoundedId(Look(f, UpgradeId)))
           && OptionalText(Look(f, ErrorCode), MAX_ERROR_CODE_CHARS))
    case MetricsCapabilitiesResult => When(OkFine(h, f) && CapabilitiesFine(h, f))
    case CommandAck => When(BoundedId(Look(f, Id)) && IsoTime(h, Look(f, At)) && IsoTime(h, Look(f, DaemonReceivedAt)))
    case CommandOutcome => When(OutcomeFine(h, f))
    case Unlisted(_) => Invalid
    case _ => h.rest(kind, f)
  }

  // ---------------------------------------------------------------- oversized outcomes

  const SIZE_HEAD: string := "The server's report was too large to store ("
  const SIZE_TAIL: string := " KB; limit 64 KB)."

  /** `oversizedResultError`: the size rounded up to KB. */
  function SizeNote(bytes: nat): string {
    SIZE_HEAD + Decimal((bytes + 1023) / 1024) + SIZE_TAIL
  }

  /** `text.slice(0, end)` */
  function SliceTo(text: string, end: int): string {
    if end >= |text| then text
    else if end >= 0 then text[..end]
    else if |text| + end > 0 then text[..|text| + end] else ""
  }

  function FailedError(error: Field, bytes: nat): string {
    if IsText(error) && error.value.s != "" then
      SliceTo(error.value.s, MAX_ERROR_CHARS - |SizeNote(bytes)| - 1) + " " + SizeNote(bytes)
    else SizeNote(bytes)
  }

  predicate Oversized(h: Host, f: Fields) {
    Look(f, Result).Some? && h.jsonBytes(Look(f, Result).value) > MAX_RESULT_BYTES
  }

  /** The failed outcome: the same message without its result, not ok, with the error above. */
  function FailOutcome(h: Host, f: Fields): Fields
    requires Oversized(h, f)
  {
    (f - {Result})[Ok := Bool(false)][Error := Str(FailedError(Look(f, Error), h.jsonBytes(f[Result])))]
  }

  function Pow10(n: nat): nat {
    if n == 0 then 1 else 10 * Pow10(n - 1)
  }

  lemma {:induction false} DecimalLength(n: nat, digits: nat)
    requires digits > 0 && n < Pow10(digits)
    ensures |Decimal(n)| <= digits
    decreases digits
  {
    if n >= 10 {
      DecimalLength(n / 10, digits - 1);
    }
  }

  /** The size note leaves room for at least four thousand characters of the daemon's error. */
  lemma SizeNoteShort(bytes: nat)
    requires bytes < SAFE
    ensures |SizeNote(bytes)| <= 95
  {
    assert |SIZE_HEAD| == 44 && |SIZE_TAIL| == 18;
    assert Pow10(4) == 10_000 && Pow10(8) == 100_000_000 && Pow10(16) == 10_000_000_000_000_000;
    DecimalLength((bytes + 1023) / 1024, 16);
  }

  /** The note gives the size in kilobytes, rounded up. */
  lemma SizeNoteSays(bytes: nat) returns (kb: nat)
    ensures SizeNote(bytes) == "The server's report was too large to store (" + Decimal(kb) + " KB; limit 64 KB)."
    ensures 1024 * kb >= bytes && (kb == 0 || 1024 * (kb - 1) < bytes)
  {
    kb := (bytes + 1023) / 1024;
  }

  /** The error stays within the cap, ends with the note, and starts with the daemon's own error, cut only past 4000. */
  lemma FailedErrorFits(error: Field, bytes: nat)
    requires bytes < SAFE && OptionalError(error)
    ensures var e := FailedError(error, bytes);
            && 0 < |e| <= MAX_ERROR_CHARS
            && |SizeNote(bytes)| <= |e| && e[|e| - |SizeNote(bytes)|..] == SizeNote(bytes)
            && (IsText(error) ==> StartsWith(e, SliceTo(error.value.s, 4000)))
  {
    SizeNoteShort(bytes);
    if IsText(error) && error.value.s != "" {
      var note, own := SizeNote(bytes), error.value.s;
      var cut := SliceTo(own, MAX_ERROR_CHARS - |note| - 1);
      var e := cut + " " + note;
      assert e[|e| - |note|..] == note;
      assert e[..|SliceTo(own, 4000)|] == SliceTo(own, 4000);
    }
  }

  // ---------------------------------------------------------------- validateDaemonInboundFrame

  datatype Note = OversizedNote(id: string, bytes: nat) | FeatureNote(note: Features.Note)

  datatype FrameResult = Accepted(message: Message, notes: seq<Note>) | Ignored | Rejected

  predicate LoggableChar(c: char) {
    'A' <= c <= 'Z' || 'a' <= c <= 'z' || '0' <= c <= '9' || c == '_' || c == '-'
  }

  function LoggedId(f: Field): string {
    if IsText(f) && 1 <= |f.value.s| <= 64 && (forall i :: 0 <= i < |f.value.s| ==> LoggableChar(f.value.s[i]))
    then f.value.s
    else "?"
  }

  function AcceptMessage(h: Host, m: Message): FrameResult {
    if m.kind.CommandOutcome? && Oversized(h, m.fields) then
      Accepted(m.(fields := FailOutcome(h, m.fields)),
               [OversizedNote(LoggedId(Look(m.fields, Id)), h.jsonBytes(m.fields[Result]))])
    else if m.kind.Hello? && IsArray(Look(m.fields, FeatureList)) then
      var kept := Features.Filter(m.fields[FeatureList].items, h.known);
      Accepted(m.(fields := m.fields[FeatureList := Arr(Features.AsEntries(kept.features))]),
               if kept.note.Some? then [FeatureNote(kept.note.value)] else [])
    else Accepted(m, [])
  }

  function ValidateFrame(h: Host, rawBytes: nat, parsed: Parsed): FrameResult {
    if rawBytes > MAX_FRAME_BYTES || !parsed.Frame? then Rejected
    else if parsed.message.kind.Unlisted? then Ignored
    else
      match FieldIssue(h, parsed.message.kind, parsed.message.fields)
      case UnknownValue => Ignored
      case Invalid => Rejected
      case Fine => AcceptMessage(h, parsed.message)
  }

  // ---------------------------------------------------------------- wireMessageToInboundEnvelope

  datatype Envelope = Envelope(kind: Kind, requestId: Field, at: Field, fields: Fields)

  /** The fields an envelope of this kind carries besides id and time; nothing for messages that answer no request. */
  function Carried(kind: Kind): Option<set<Key>> {
    match kind
    case AddressesResult => Some({Ips})
    case ManagedLogsResult | ContainerLogsResult => Some({Logs, Error})
    case ManagedHealthResult => Some({Ok, Key.Member, Error})
    case ManagedPermissionsResult => Some({Ok, Permissions, Error})
    case ServerNetworkCheckResult => Some({Ok, Results, Error})
    case DevHostActionResult => Some({Ok, JobId, Error})
    case RepoReadResult => Some({Ok, CommitSha, Files, Entries, Error})
    case RepoDefaultBranchResult => Some({Ok, DefaultBranch, Error})
    case FabricPathsResult => Some({Paths, Error})
    case MetricsCapabilitiesResult => Some({Ok, Capabilities, Error})
    case DevSyncResult | TunnelTokenResult | PublicUrlsUpdateResult | MetricsLiveStartResult | MetricsLiveStopResult
      | TopologyOverridesUpdateResult | CapabilityPlanUpdateResult | CapabilityPlanClearResult => Some({Ok, Error})
    case DeployCancelResult => Some({Ok, Outcome, Error})
    case UpdateResult | InstanceUpdateResult => Some({Ok, Error, ErrorCode, UpgradeId})
    case CommandAck => Some({DaemonReceivedAt})
    case CommandOutcome => Some({Ok, Result, Error, DaemonReceivedAt, DaemonRespondedAt})
    case _ => None
  }

  function Restrict(f: Fields, keys: set<Key>): Fields {
    map key | key in f && key in keys :: f[key]
  }

  function ToEnvelope(m: Message): Option<Envelope> {
    match Carried(m.kind)
    case None => None
    case Some(keys) => Some(Envelope(m.kind, Look(m.fields, Id), Look(m.fields, At), Restrict(m.fields, keys)))
  }

  // ---------------------------------------------------------------- validateDaemonInboundEnvelope

  /** The envelope check reads fields without a look at their types; where JavaScript has no answer, it throws. */
  datatype Verdict = Accept | Refuse | Throw

  function Check(ok: bool): Verdict {
    if ok then Accept else Refuse
  }

  function Both(a: Verdict, b: Verdict): Verdict {
    if a.Accept? then b else a
  }

  const LENGTH: string := "length"

  /** `value > max` must not hold. */
  function AtMost(h: Host, value: Json, max: nat): Verdict {
    match value
    case Null => Accept
    case Bool(b) => Check(b ==> 1 <= max)
    case Num(n) => Check(n <= max as real)
    case _ => h.over(value, max)
  }

  /**
   * `value.length > max` must not hold: texts and arrays have a length, an object
   * may have a member of that name, numbers and booleans have none and pass.
   */
  function LengthAtMost(h: Host, f: Field, max: nat): Verdict {
    if f.None? then Throw
    else
      match f.value
      case Null => Throw
      case Bool(_) => Accept
      case Num(_) => Accept
      case Str(s) => Check(|s| <= max)
      case Arr(items) => Check(|items| <= max)
      case Obj(fields) => if LENGTH in fields then AtMost(h, fields[LENGTH], max) else Accept
  }

  /** `file.content ?? ''` as `TextEncoder` takes it; nothing when that throws. */
  function ContentText(h: Host, file: Json): Option<string> {
    var content := Member(file, CONTENT);
    if file.Null? then None
    else if content.None? || content.value.Null? then Some("")
    else if content.value.Str? then Some(content.value.s)
    else h.asText(content.value)
  }

  /** The byte budget over all files, absent or null content counting as empty. */
  function FilesVerdict(h: Host, files: seq<Json>, bytes: nat): Verdict
    decreases |files|
  {
    if files == [] then Accept
    else
      match ContentText(h, files[0])
      case None => Throw
      case Some(text) =>
        var total := bytes + h.utf8(text);
        if total > MAX_REPO_READ_BYTES then Refuse else FilesVerdict(h, files[1..], total)
  }

  /** `for (const file of files ?? [])`: the characters of a text are files without content. */
  function FilesEach(h: Host, files: Field): Verdict {
    if files.None? || files.value.Null? then Accept
    else
      match files.value
      case Arr(items) => FilesVerdict(h, items, 0)
      case Str(s) => FilesVerdict(h, seq(|s|, i requires 0 <= i < |s| => Str([s[i]])), 0)
      case _ => Throw
  }

  function RepoReadVerdict(h: Host, f: Fields): Verdict {
    var entries := Look(f, Entries);
    Both(FilesEach(h, Look(f, Files)),
         Both(if entries.None? || entries.value.Null? then Accept else LengthAtMost(h, entries, MAX_REPO_READ_ENTRIES),
              Check(OptionalError(Look(f, Error)))))
  }

  /** `for (const entry of paths)`: a text passes when it has no character, as no character is a path. */
  function PathsEach(h: Host, paths: Field): Verdict {
    if paths.None? then Throw
    else
      match paths.value
      case Arr(items) => Check(forall i :: 0 <= i < |items| ==> h.pathFine(items[i]))
      case Str(s) => Check(s == "")
      case _ => Throw
  }

  /** `validateInboundEnvelopeKind` */
  function KindVerdict(h: Host, kind: Kind, f: Fields): Verdict {
    match kind
    case ManagedLogsResult | ContainerLogsResult =>
      Both(LengthAtMost(h, Look(f, Logs), MAX_LOGS_CHARS), Check(OptionalError(Look(f, Error))))
    case RepoReadResult => RepoReadVerdict(h, f)
    case RepoDefaultBranchResult | ManagedHealthResult | ManagedPermissionsResult | ServerNetworkCheckResult =>
      Check(OptionalError(Look(f, Error)))
    case DevHostActionResult =>
      Check((Look(f, JobId).None? || BoundedId(Look(f, JobId))) && OptionalError(Look(f, Error)))
    case FabricPathsResult =>
      Both(LengthAtMost(h, Look(f, Paths), MAX_PATH_ENTRIES),
           Both(PathsEach(h, Look(f, Paths)), Check(OptionalError(Look(f, Error)))))
    case CommandOutcome => Check(OptionalError(Look(f, Error)) && !Oversized(h, f))
    case DevSyncResult | TunnelTokenResult | PublicUrlsUpdateResult | UpdateResult | InstanceUpdateResult
      | MetricsLiveStartResult | MetricsLiveStopResult | TopologyOverridesUpdateResult | CapabilityPlanUpdateResult
      | CapabilityPlanClearResult | DeployCancelResult => Check(OptionalError(Look(f, Error)))
    case MetricsCapabilitiesResult =>
      Check((Look(f, Capabilities).Some? ==> h.jsonBytes(Look(f, Capabilities).value) <= MAX_CAPABILITIES_BYTES)
            && OptionalError(Look(f, Error)))
    case CommandAck => Check(IsoTime(h, Look(f, DaemonReceivedAt)))
    case AddressesResult => Accept
    case _ => Refuse
  }

  function ValidateEnvelope(h: Host, e: Envelope): Verdict {
    if !BoundedId(e.requestId) || !IsoTime(h, e.at) then Refuse else KindVerdict(h, e.kind, e.fields)
  }

  // ---------------------------------------------------------------- agreement

  lemma LookRestrict(f: Fields, keys: set<Key>, key: Key)
    ensures key in keys ==> Look(Restrict(f, keys), key) == Look(f, key)
  {
  }

  /** Files within the frame's budget are within the envelope's: absent content adds nothing. */
  lemma {:induction false} FilesAgree(h: Host, files: seq<Json>, bytes: nat)
    requires h.utf8("") == 0 && FilesFine(h, files, bytes) && bytes <= MAX_REPO_READ_BYTES
    ensures FilesVerdict(h, files, bytes).Accept?
    decreases |files|
  {
    if files != [] {
      var content := Member(files[0], CONTENT);
      FilesAgree(h, files[1..], if content.None? then bytes else bytes + h.utf8(content.value.s));
    }
  }

  /** The bytes of a file's content, as text; a file without content has none. */
  function BytesOf(h: Host, file: Json): nat {
    var content, text := Member(file, CONTENT), ContentText(h, file);
    if content.None? || content.value.Null? || text.None? then 0 else h.utf8(text.value)
  }

  /** The bytes of all file contents. */
  function ContentBytes(h: Host, files: seq<Json>): nat {
    if files == [] then 0 else BytesOf(h, files[0]) + ContentBytes(h, files[1..])
  }

  predicate WellFormedFile(file: Json) {
    && IsText(Member(file, PATH)) && IsBool(Member(file, FOUND))
    && (Member(file, CONTENT).None? || IsText(Member(file, CONTENT)))
  }

  /** The running total of the frame check is a bound on the sum. */
  lemma {:induction false} FilesWithinBudget(h: Host, files: seq<Json>, bytes: nat)
    requires bytes <= MAX_REPO_READ_BYTES
    ensures FilesFine(h, files, bytes) <==>
              (forall i :: 0 <= i < |files| ==> WellFormedFile(files[i]))
                && bytes + ContentBytes(h, files) <= MAX_REPO_READ_BYTES
    decreases |files|
  {
    if files != [] {
      var content := Member(files[0], CONTENT);
      var total := bytes + (if IsText(content) then h.utf8(content.value.s) else 0);
      assert forall i :: 1 <= i < |files| ==> files[i] == files[1..][i - 1];
      if total <= MAX_REPO_READ_BYTES {
        FilesWithinBudget(h, files[1..], total);
      }
    }
  }

  /** An envelope that passes cannot hold contents over the budget. */
  lemma {:induction false} FilesVerdictBounds(h: Host, files: seq<Json>, bytes: nat)
    requires FilesVerdict(h, files, bytes).Accept? && bytes <= MAX_REPO_READ_BYTES
    ensures bytes + ContentBytes(h, files) <= MAX_REPO_READ_BYTES
    decreases |files|
  {
    if files != [] {
      FilesVerdictBounds(h, files[1..], bytes + h.utf8(ContentText(h, files[0]).value));
    }
  }

  // ---------------------------------------------------------------- what the envelope check does not repeat

  /** The frame checks that the envelope check leaves out, kind by kind. */
  predicate Unrechecked(h: Host, kind: Kind, f: Fields) {
    match kind
    case AddressesResult => IsArray(Look(f, Ips)) && OptionalError(Look(f, Error))
    case RepoReadResult => IsBool(Look(f, Ok)) && FilesShaped(h, Look(f, Files)) && ListOrNone(Look(f, Entries))
    case RepoDefaultBranchResult =>
      IsBool(Look(f, Ok))
        && (Look(f, DefaultBranch) == Some(Null) || OptionalText(Look(f, DefaultBranch), MAX_BRANCH_CHARS))
    case UpdateResult | InstanceUpdateResult =>
      && IsBool(Look(f, Ok)) && (Look(f, UpgradeId).None? || BoundedId(Look(f, UpgradeId)))
      && OptionalText(Look(f, ErrorCode), MAX_ERROR_CODE_CHARS)
    case MetricsCapabilitiesResult =>
      && IsBool(Look(f, Ok))
      && (if Look(f, Capabilities).None? then Look(f, Ok) != Some(Bool(true)) else Look(f, Capabilities).value.Obj?)
    case CommandOutcome =>
      IsBool(Look(f, Ok)) && OptionalTime(h, Look(f, DaemonReceivedAt)) && OptionalTime(h, Look(f, DaemonRespondedAt))
    case ManagedHealthResult | ManagedPermissionsResult | ServerNetworkCheckResult | DeployCancelResult =>
      IsBool(Look(f, Ok)) && h.rest(kind, f).Fine?
    case ManagedLogsResult | ContainerLogsResult => IsText(Look(f, Logs))
    case FabricPathsResult => IsArray(Look(f, Paths))
    case CommandAck => true
    case _ => IsBool(Look(f, Ok))
  }

  predicate ListOrNone(f: Field) {
    f.None? || IsArray(f)
  }

  /** At most sixteen files, each with a path, a flag and text content if any. */
  predicate FilesShaped(h: Host, f: Field) {
    f.None?
    || (IsArray(f) && |f.value.items| <= MAX_REPO_READ_PATHS
        && forall i :: 0 <= i < |f.value.items| ==> WellFormedFile(f.value.items[i]))
  }

  lemma {:induction false} ShapedFilesVerdict(h: Host, files: seq<Json>, bytes: nat)
    requires h.utf8("") == 0 && bytes <= MAX_REPO_READ_BYTES && forall i :: 0 <= i < |files| ==>
               WellFormedFile(files[i])
    ensures FilesVerdict(h, files, bytes).Accept? <==> bytes + ContentBytes(h, files) <= MAX_REPO_READ_BYTES
    decreases |files|
  {
    if files != [] {
      var content := Member(files[0], CONTENT);
      assert WellFormedFile(files[0]);
      var total := bytes + h.utf8(if IsText(content) then content.value.s else "");
      if total <= MAX_REPO_READ_BYTES {
        ShapedFilesVerdict(h, files[1..], total);
      }
    }
  }

  /** For files, the frame check is the envelope check and the shape. */
  lemma FileListsAgree(h: Host, f: Field)
    requires h.utf8("") == 0
    ensures FileListFine(h, f) <==> FilesShaped(h, f) && (IsArray(f) ==> FilesVerdict(h, f.value.items, 0).Accept?)
  {
    if IsArray(f) {
      FilesWithinBudget(h, f.value.items, 0);
      if FilesShaped(h, f) {
        ShapedFilesVerdict(h, f.value.items, 0);
      }
    }
  }

  /** The fields an envelope holds, with its id and time, as a message of its kind. */
  function AsFields(e: Envelope): Fields {
    var withId := if e.requestId.Some? then e.fields[Id := e.requestId.value] else e.fields - {Id};
    if e.at.Some? then withId[At := e.at.value] else withId - {At}
  }

  lemma AsFieldsLooks(e: Envelope, key: Key)
    ensures Look(AsFields(e), Id) == e.requestId && Look(AsFields(e), At) == e.at
    ensures key != Id && key != At ==> Look(AsFields(e), key) == Look(e.fields, key)
  {
  }

  /** Both validators look at the same values. */
  ghost predicate SameLooks(f: Fields, g: Fields) {
    forall key: Key :: key != Id && key != At ==> Look(f, key) == Look(g, key)
  }

  lemma SameVerdict(h: Host, kind: Kind, f: Fields, g: Fields)
    requires SameLooks(f, g)
    ensures KindVerdict(h, kind, f) == KindVerdict(h, kind, g) && Oversized(h, f) == Oversized(h, g)
  {
    assert Look(f, Error) == Look(g, Error) && Look(f, Result) == Look(g, Result);
    if kind.RepoReadResult? {
      assert Look(f, Files) == Look(g, Files) && Look(f, Entries) == Look(g, Entries);
    } else if Special(kind) {
      SameSpecialVerdict(h, kind, f, g);
    } else {
      assert Look(f, JobId) == Look(g, JobId);
    }
  }

  lemma SameSpecialVerdict(h: Host, kind: Kind, f: Fields, g: Fields)
    requires SameLooks(f, g) && Special(kind)
    ensures KindVerdict(h, kind, f) == KindVerdict(h, kind, g)
  {
    assert Look(f, Error) == Look(g, Error) && Look(f, Result) == Look(g, Result);
    assert Look(f, Logs) == Look(g, Logs) && Look(f, Paths) == Look(g, Paths);
    assert Look(f, Capabilities) == Look(g, Capabilities) && Look(f, DaemonReceivedAt) == Look(g, DaemonReceivedAt);
  }

  lemma RepoReadRest(h: Host, f: Fields)
    requires h.utf8("") == 0
    ensures OkFine(h, f) && FileListFine(h, Look(f, Files)) && EntriesFine(Look(f, Entries)) <==>
              && BoundedId(Look(f, Id)) && IsoTime(h, Look(f, At))
              && RepoReadVerdict(h, f).Accept? && Unrechecked(h, RepoReadResult, f)
  {
    FileListsAgree(h, Look(f, Files));
  }

  /** The frame's field checks are the envelope's, the id and time, and what the envelope check leaves out. */
  lemma RecheckedAndRest(h: Host, kind: Kind, f: Fields)
    requires h.utf8("") == 0 && Carried(kind).Some?
    ensures FieldIssue(h, kind, f).Fine? && (kind.CommandOutcome? ==> !Oversized(h, f)) <==>
              && BoundedId(Look(f, Id)) && IsoTime(h, Look(f, At))
              && KindVerdict(h, kind, f).Accept? && Unrechecked(h, kind, f)
  {
    if kind.RepoReadResult? {
      RepoReadRest(h, f);
    } else if Special(kind) {
      SpecialRest(h, kind, f);
    } else {
      OtherRest(h, kind, f);
    }
  }

  /** The kinds whose frame check asks for more than `ok` and an error. */
  predicate Special(kind: Kind) {
    || kind.AddressesResult? || kind.ManagedLogsResult? || kind.ContainerLogsResult? || kind.FabricPathsResult?
    || kind.MetricsCapabilitiesResult? || kind.CommandAck? || kind.CommandOutcome?
  }

  lemma SpecialRest(h: Host, kind: Kind, f: Fields)
    requires Special(kind)
    ensures FieldIssue(h, kind, f).Fine? && (kind.CommandOutcome? ==> !Oversized(h, f)) <==>
              && BoundedId(Look(f, Id)) && IsoTime(h, Look(f, At))
              && KindVerdict(h, kind, f).Accept? && Unrechecked(h, kind, f)
  {
  }

  lemma OtherRest(h: Host, kind: Kind, f: Fields)
    requires Carried(kind).Some? && !kind.RepoReadResult? && !Special(kind)
    ensures FieldIssue(h, kind, f).Fine? <==>
              && BoundedId(Look(f, Id)) && IsoTime(h, Look(f, At))
              && KindVerdict(h, kind, f).Accept? && Unrechecked(h, kind, f)
  {
  }

  /**
   * The envelope check guards the wire caps exactly up to the checks it leaves
   * out: an envelope's fields pass the frame's checks if and only if the
   * envelope is accepted and the checks left out hold of it.
   */
  lemma EnvelopeGuardsExactly(h: Host, e: Envelope)
    requires h.utf8("") == 0 && Carried(e.kind).Some?
    ensures FieldIssue(h, e.kind, AsFields(e)).Fine? && (e.kind.CommandOutcome? ==> !Oversized(h, e.fields)) <==>
              ValidateEnvelope(h, e).Accept? && Unrechecked(h, e.kind, AsFields(e))
  {
    forall key: Key | key != Id && key != At ensures Look(AsFields(e), key) == Look(e.fields, key) {
      AsFieldsLooks(e, key);
    }
    AsFieldsLooks(e, Id);
    SameVerdict(h, e.kind, AsFields(e), e.fields);
    RecheckedAndRest(h, e.kind, AsFields(e));
  }

  /**
   * What the envelope check does guarantee, of any envelope: it is of a kind
   * that answers a request, its id, time, error, result and capabilities are
   * within their bounds, and so are logs that are a text, paths, file contents
   * and entries that are lists.
   */
  lemma AcceptedEnvelopeBounded(h: Host, e: Envelope)
    requires ValidateEnvelope(h, e).Accept?
    ensures BoundedId(e.requestId) && IsoTime(h, e.at) && Carried(e.kind).Some?
    ensures Error in Carried(e.kind).value ==> OptionalError(Look(e.fields, Error))
    ensures Logs in Carried(e.kind).value && IsText(Look(e.fields, Logs)) ==>
              |Look(e.fields, Logs).value.s| <= MAX_LOGS_CHARS
    ensures Paths in Carried(e.kind).value ==>
              PathsFine(h, Look(e.fields, Paths)) || Look(e.fields, Paths) == Some(Str(""))
    ensures Result in Carried(e.kind).value ==> !Oversized(h, e.fields)
    ensures ListsBounded(h, e)
  {
    AcceptedListsBounded(h, e);
  }

  /** The file contents, the entries and the capabilities are within their bounds. */
  ghost predicate ListsBounded(h: Host, e: Envelope) {
    Carried(e.kind).Some? ==>
      && (Files in Carried(e.kind).value && IsArray(Look(e.fields, Files)) ==>
            ContentBytes(h, Look(e.fields, Files).value.items) <= MAX_REPO_READ_BYTES)
      && (Entries in Carried(e.kind).value && IsArray(Look(e.fields, Entries)) ==>
            |Look(e.fields, Entries).value.items| <= MAX_REPO_READ_ENTRIES)
      && (Capabilities in Carried(e.kind).value && Look(e.fields, Capabilities).Some? ==>
            h.jsonBytes(Look(e.fields, Capabilities).value) <= MAX_CAPABILITIES_BYTES)
  }

  lemma AcceptedListsBounded(h: Host, e: Envelope)
    requires ValidateEnvelope(h, e).Accept?
    ensures ListsBounded(h, e)
  {
    if e.kind.RepoReadResult? && IsArray(Look(e.fields, Files)) {
      FilesVerdictBounds(h, Look(e.fields, Files).value.items, 0);
    }
  }

  /** An accepted envelope that the frame check would have refused. */
  ghost predicate Bypasses(h: Host, e: Envelope) {
    ValidateEnvelope(h, e).Accept? && FieldIssue(h, e.kind, AsFields(e)).Invalid?
  }

  /** A branch name, or an error code, of any length over its cap passes the envelope check. */
  lemma LongTextBypasses(h: Host, id: string, at: string, text: string)
    requires 0 < |id| <= MAX_ID_CHARS && h.isTime(at)
    ensures |text| > MAX_BRANCH_CHARS ==>
              Bypasses(h, Envelope(RepoDefaultBranchResult, Some(Str(id)), Some(Str(at)),
                map[Ok := Bool(true), DefaultBranch := Str(text)]))
    ensures |text| > MAX_ERROR_CODE_CHARS ==>
              Bypasses(h, Envelope(UpdateResult, Some(Str(id)), Some(Str(at)),
                map[Ok := Bool(true), ErrorCode := Str(text)]))
  {
    var branch := map[Ok := Bool(true), DefaultBranch := Str(text)];
    var code := map[Ok := Bool(true), ErrorCode := Str(text)];
    assert Look(branch, DefaultBranch) == Some(Str(text)) && Look(branch, Error) == None;
    assert Look(code, ErrorCode) == Some(Str(text)) && Look(code, Error) == None;
  }

  /** Values without a `length` that could be compared: numbers, booleans, and objects of any size. */
  predicate Unmeasured(v: Json) {
    v.Num? || v.Bool? || (v.Obj? && LENGTH !in v.fields)
  }

  function OneField(kind: Kind, id: string, at: string, key: Key, v: Json): Envelope {
    Envelope(kind, Some(Str(id)), Some(Str(at)), map[Ok := Bool(true)][key := v])
  }

  /**
   * Values of the wrong type bypass the wire checks too. Logs: exactly the values
   * that are no text and whose length, if they have one, is not over the cap, and
   * so every number, boolean, object without that member and short array. Entries:
   * the same but for arrays. Paths: the empty text.
   */
  lemma LooseTypesBypass(h: Host, id: string, at: string, v: Json)
    requires 0 < |id| <= MAX_ID_CHARS && h.isTime(at)
    ensures Bypasses(h, OneField(ManagedLogsResult, id, at, Logs, v)) <==>
              !v.Str? && LengthAtMost(h, Some(v), MAX_LOGS_CHARS).Accept?
    ensures Bypasses(h, OneField(RepoReadResult, id, at, Entries, v)) <==>
              v.Null? || (!v.Arr? && LengthAtMost(h, Some(v), MAX_REPO_READ_ENTRIES).Accept?)
    ensures Bypasses(h, OneField(FabricPathsResult, id, at, Paths, v)) <==> v == Str("")
    ensures Unmeasured(v) ==>
              && Bypasses(h, OneField(ManagedLogsResult, id, at, Logs, v))
              && Bypasses(h, OneField(RepoReadResult, id, at, Entries, v))
  {
    LooseLogs(h, id, at, v);
    LooseEntries(h, id, at, v);
    LoosePaths(h, id, at, v);
  }

  lemma LooseLogs(h: Host, id: string, at: string, v: Json)
    requires 0 < |id| <= MAX_ID_CHARS && h.isTime(at)
    ensures Bypasses(h, OneField(ManagedLogsResult, id, at, Logs, v)) <==>
              !v.Str? && LengthAtMost(h, Some(v), MAX_LOGS_CHARS).Accept?
  {
    var f := OneField(ManagedLogsResult, id, at, Logs, v).fields;
    assert Look(f, Logs) == Some(v) && Look(f, Error) == None;
  }

  lemma LooseEntries(h: Host, id: string, at: string, v: Json)
    requires 0 < |id| <= MAX_ID_CHARS && h.isTime(at)
    ensures Bypasses(h, OneField(RepoReadResult, id, at, Entries, v)) <==>
              v.Null? || (!v.Arr? && LengthAtMost(h, Some(v), MAX_REPO_READ_ENTRIES).Accept?)
  {
    var f := OneField(RepoReadResult, id, at, Entries, v).fields;
    assert Look(f, Entries) == Some(v) && Look(f, Files) == None && Look(f, Error) == None;
  }

  lemma LoosePaths(h: Host, id: string, at: string, v: Json)
    requires 0 < |id| <= MAX_ID_CHARS && h.isTime(at)
    ensures Bypasses(h, OneField(FabricPathsResult, id, at, Paths, v)) <==> v == Str("")
  {
    var f := OneField(FabricPathsResult, id, at, Paths, v).fields;
    assert Look(f, Paths) == Some(v) && Look(f, Error) == None;
  }

  function EmptyFiles(n: nat): seq<Json> {
    seq(n, i => Obj(map[PATH := Str("a"), FOUND := Bool(true)]))
  }

  lemma {:induction false} EmptyFilesAccepted(h: Host, n: nat, bytes: nat)
    requires h.utf8("") == 0 && bytes <= MAX_REPO_READ_BYTES
    ensures FilesVerdict(h, EmptyFiles(n), bytes).Accept?
  {
    if n > 0 {
      var file := EmptyFiles(n)[0];
      assert |CONTENT| == 7 && |PATH| == 4 && |FOUND| == 5;
      assert Member(file, CONTENT) == None;
      assert EmptyFiles(n)[1..] == EmptyFiles(n - 1);
      EmptyFilesAccepted(h, n - 1, bytes);
    }
  }

  /** Any number of files passes the envelope check, the frame check stops at sixteen. */
  lemma ManyFilesBypass(h: Host, id: string, at: string, n: nat)
    requires h.utf8("") == 0 && 0 < |id| <= MAX_ID_CHARS && h.isTime(at) && n > MAX_REPO_READ_PATHS
    ensures Bypasses(h,
      Envelope(RepoReadResult, Some(Str(id)), Some(Str(at)), map[Ok := Bool(true), Files := Arr(EmptyFiles(n))]))
  {
    var f := map[Ok := Bool(true), Files := Arr(EmptyFiles(n))];
    EmptyFilesAccepted(h, n, 0);
    assert Look(f, Files) == Some(Arr(EmptyFiles(n))) && Look(f, Entries) == None && Look(f, Error) == None;
  }

  lemma RepoReadAgrees(h: Host, f: Fields)
    requires h.utf8("") == 0 && OkFine(h, f) && FileListFine(h, Look(f, Files)) && EntriesFine(Look(f, Entries))
    ensures RepoReadVerdict(h, Restrict(f, {Ok, CommitSha, Files, Entries, Error})).Accept?
  {
    var keys := {Ok, CommitSha, Files, Entries, Error};
    LookRestrict(f, keys, Files);
    LookRestrict(f, keys, Entries);
    LookRestrict(f, keys, Error);
    if Look(f, Files).Some? {
      FilesAgree(h, Look(f, Files).value.items, 0);
    }
  }

  /** Field checks that pass on the frame pass again on the envelope made from it. */
  lemma KindAgrees(h: Host, kind: Kind, f: Fields)
    requires h.utf8("") == 0 && FieldIssue(h, kind, f).Fine? && Carried(kind).Some?
    requires kind.CommandOutcome? ==> !Oversized(h, f)
    ensures KindVerdict(h, kind, Restrict(f, Carried(kind).value)).Accept?
    ensures BoundedId(Look(f, Id)) && IsoTime(h, Look(f, At))
  {
    var keys := Carried(kind).value;
    LookRestrict(f, keys, Error);
    LookRestrict(f, keys, Logs);
    LookRestrict(f, keys, JobId);
    LookRestrict(f, keys, Paths);
    LookRestrict(f, keys, Capabilities);
    LookRestrict(f, keys, Result);
    LookRestrict(f, keys, DaemonReceivedAt);
    if kind.RepoReadResult? {
      RepoReadAgrees(h, f);
    }
  }

  lemma FailedOutcomeLooks(h: Host, f: Fields, key: Key)
    requires Oversized(h, f)
    ensures var g := FailOutcome(h, f);
            && Look(g, Ok) == Some(Bool(false)) && Look(g, Result) == None
            && Look(g, Error) == Some(Str(FailedError(Look(f, Error), h.jsonBytes(f[Result]))))
            && (key != Ok && key != Result && key != Error ==> Look(g, key) == Look(f, key))
  {
  }

  /** An oversized outcome becomes a message that passes the field checks itself. */
  lemma FailedOutcomeFine(h: Host, f: Fields)
    requires SoundHost(h) && OutcomeFine(h, f) && Oversized(h, f)
    ensures OutcomeFine(h, FailOutcome(h, f)) && !Oversized(h, FailOutcome(h, f))
  {
    FailedErrorFits(Look(f, Error), h.jsonBytes(f[Result]));
    FailedOutcomeLooks(h, f, Id);
    FailedOutcomeLooks(h, f, At);
    FailedOutcomeLooks(h, f, DaemonReceivedAt);
    FailedOutcomeLooks(h, f, DaemonRespondedAt);
  }

  /** Whatever the frame validator accepts passes the frame validator's own field checks. */
  lemma AcceptedIsFine(h: Host, rawBytes: nat, parsed: Parsed)
    requires SoundHost(h) && ValidateFrame(h, rawBytes, parsed).Accepted?
    ensures var m := ValidateFrame(h, rawBytes, parsed).message;
            && m.kind == parsed.message.kind && !m.kind.Unlisted? && FieldIssue(h, m.kind, m.fields).Fine?
            && (m.kind.CommandOutcome? ==> !Oversized(h, m.fields))
            && Look(m.fields, Id) == Look(parsed.message.fields, Id)
            && Look(m.fields, At) == Look(parsed.message.fields, At)
  {
    var m := parsed.message;
    if m.kind.CommandOutcome? && Oversized(h, m.fields) {
      FailedOutcomeFine(h, m.fields);
      FailedOutcomeLooks(h, m.fields, Id);
      FailedOutcomeLooks(h, m.fields, At);
    } else if m.kind.Hello? && IsArray(Look(m.fields, FeatureList)) {
      var kept := Features.Filter(m.fields[FeatureList].items, h.known).features;
      var g := m.fields[FeatureList := Arr(Features.AsEntries(kept))];
      assert g - {FeatureList} == m.fields - {FeatureList};
    }
  }

  /**
   * Validator agreement: every accepted frame that maps to an envelope yields
   * one the envelope validator accepts, with the frame's own id and time.
   */
  lemma ValidatorsAgree(h: Host, rawBytes: nat, parsed: Parsed)
    requires SoundHost(h) && ValidateFrame(h, rawBytes, parsed).Accepted?
    requires ToEnvelope(ValidateFrame(h, rawBytes, parsed).message).Some?
    ensures var e := ToEnvelope(ValidateFrame(h, rawBytes, parsed).message).value;
            && ValidateEnvelope(h, e).Accept?
            && e.kind == parsed.message.kind
            && e.requestId == Look(parsed.message.fields, Id) && e.at == Look(parsed.message.fields, At)
  {
    AcceptedIsFine(h, rawBytes, parsed);
    var m := ValidateFrame(h, rawBytes, parsed).message;
    KindAgrees(h, m.kind, m.fields);
  }

  /** An oversized outcome that is otherwise fine is accepted as a failed outcome for the same command. */
  lemma OversizedOutcomeFails(h: Host, rawBytes: nat, m: Message)
    requires SoundHost(h) && rawBytes <= MAX_FRAME_BYTES && m.kind.CommandOutcome?
    requires OutcomeFine(h, m.fields) && Oversized(h, m.fields)
    ensures var r := ValidateFrame(h, rawBytes, Frame(m));
            && r.Accepted? && ToEnvelope(r.message).Some?
            && var e := ToEnvelope(r.message).value;
            && ValidateEnvelope(h, e).Accept? && e.requestId == Look(m.fields, Id) && e.at == Look(m.fields, At)
            && Look(e.fields, DaemonReceivedAt) == Look(m.fields, DaemonReceivedAt)
            && Look(e.fields, DaemonRespondedAt) == Look(m.fields, DaemonRespondedAt)
            && |r.notes| == 1 && r.notes[0].OversizedNote? && r.notes[0].bytes == h.jsonBytes(m.fields[Result])
            && Look(e.fields, Ok) == Some(Bool(false)) && Look(e.fields, Result) == None
            && IsText(Look(e.fields, Error))
            && |Look(e.fields, Error).value.s| <= MAX_ERROR_CHARS
            && (IsText(Look(m.fields, Error)) ==>
                  StartsWith(Look(e.fields, Error).value.s, SliceTo(Look(m.fields, Error).value.s, 4000)))
  {
    ValidatorsAgree(h, rawBytes, Frame(m));
    FailedErrorFits(Look(m.fields, Error), h.jsonBytes(m.fields[Result]));
    var g := FailOutcome(h, m.fields);
    FailedOutcomeLooks(h, m.fields, Id);
    FailedOutcomeLooks(h, m.fields, DaemonReceivedAt);
    FailedOutcomeLooks(h, m.fields, DaemonRespondedAt);
    var keys := Carried(CommandOutcome).value;
    LookRestrict(g, keys, DaemonReceivedAt);
    LookRestrict(g, keys, DaemonRespondedAt);
    LookRestrict(g, keys, Ok);
    LookRestrict(g, keys, Result);
    LookRestrict(g, keys, Error);
  }

  /** An accepted message sent again as a frame is accepted unchanged, with nothing to note. */
  lemma AcceptedIsStable(h: Host, rawBytes: nat, parsed: Parsed, again: nat)
    requires SoundHost(h) && ValidateFrame(h, rawBytes, parsed).Accepted? && again <= MAX_FRAME_BYTES
    ensures var m := ValidateFrame(h, rawBytes, parsed).message;
            ValidateFrame(h, again, Frame(m)) == Accepted(m, [])
  {
    AcceptedIsFine(h, rawBytes, parsed);
    var m := ValidateFrame(h, rawBytes, parsed).message;
    if m.kind.Hello? && IsArray(Look(parsed.message.fields, FeatureList)) {
      var items := parsed.message.fields[FeatureList].items;
      Features.FilterIdempotent(items, h.known);
      var f := Features.Filter(items, h.known).features;
      assert m.fields[FeatureList] == Arr(Features.AsEntries(f));
      assert m.fields[FeatureList := Arr(Features.AsEntries(f))] == m.fields;
    }
  }

  // ---------------------------------------------------------------- what an envelope holds

  /** Session setup, reports and events: messages that answer no request. */
  predicate FireAndForget(kind: Kind) {
    || kind.Hello? || kind.Heartbeat? || kind.ManagedHaEvent? || kind.ManagedHealthReport?
    || kind.FabricPeersReport? || kind.DevHostStatus? || kind.RepoKeyChanged? || kind.TopologyReport?
    || kind.AcmeIssuanceEvent? || kind.InstanceAcmeIssuanceEvent? || kind.AcmeIssueEvent?
    || kind.AcmeProofForwardReady? || kind.AcmeProofForwardFailed? || kind.BackupRunReport?
    || kind.BackupCopyReport? || kind.UpdateProgress? || kind.CommandProgress?
  }

  /** Answers that say `ok` and, if not, why. */
  predicate SaysOk(kind: Kind) {
    !FireAndForget(kind) && !kind.AddressesResult? && !IsLogs(kind) && !kind.FabricPathsResult? && !kind.CommandAck?
  }

  predicate IsLogs(kind: Kind) {
    kind.ManagedLogsResult? || kind.ContainerLogsResult?
  }

  predicate IsUpdate(kind: Kind) {
    kind.UpdateResult? || kind.InstanceUpdateResult?
  }

  /** Field by field, the answers that hold it. */
  predicate Holds(kind: Kind, key: Key) {
    match key
    case Ok => SaysOk(kind)
    case Error => SaysOk(kind) || IsLogs(kind) || kind.FabricPathsResult?
    case Ips => kind.AddressesResult?
    case Logs => IsLogs(kind)
    case Member => kind.ManagedHealthResult?
    case Permissions => kind.ManagedPermissionsResult?
    case Results => kind.ServerNetworkCheckResult?
    case JobId => kind.DevHostActionResult?
    case CommitSha => kind.RepoReadResult?
    case Files => kind.RepoReadResult?
    case Entries => kind.RepoReadResult?
    case DefaultBranch => kind.RepoDefaultBranchResult?
    case Paths => kind.FabricPathsResult?
    case Capabilities => kind.MetricsCapabilitiesResult?
    case Outcome => kind.DeployCancelResult?
    case ErrorCode => IsUpdate(kind)
    case UpgradeId => IsUpdate(kind)
    case Result => kind.CommandOutcome?
    case DaemonReceivedAt => kind.CommandAck? || kind.CommandOutcome?
    case DaemonRespondedAt => kind.CommandOutcome?
    case _ => false
  }

  lemma CarriedAnswers(kind: Kind)
    requires !kind.Unlisted?
    ensures Carried(kind).None? <==> FireAndForget(kind)
  {
  }

  /** The set of fields is exactly those the kind holds. */
  ghost predicate AreHeld(kind: Kind, keys: set<Key>) {
    forall key :: key in keys <==> Holds(kind, key)
  }

  lemma PlainHeld(kind: Kind)
    requires kind.DevSyncResult? || kind.TunnelTokenResult? || kind.PublicUrlsUpdateResult?
             || kind.MetricsLiveStartResult?
    ensures AreHeld(kind, {Ok, Error})
  {
  }

  lemma StopHeld(kind: Kind)
    requires kind.MetricsLiveStopResult? || kind.TopologyOverridesUpdateResult? || kind.CapabilityPlanUpdateResult?
             || kind.CapabilityPlanClearResult?
    ensures AreHeld(kind, {Ok, Error})
  {
  }

  lemma ReadingsHeld()
    ensures AreHeld(AddressesResult, {Ips})
    ensures AreHeld(ManagedLogsResult, {Logs, Error})
    ensures AreHeld(ContainerLogsResult, {Logs, Error})
    ensures AreHeld(FabricPathsResult, {Paths, Error})
  {
  }

  lemma ManagedHeld()
    ensures AreHeld(ManagedHealthResult, {Ok, Key.Member, Error})
    ensures AreHeld(ManagedPermissionsResult, {Ok, Permissions, Error})
  {
  }

  lemma HostHeld()
    ensures AreHeld(ServerNetworkCheckResult, {Ok, Results, Error})
    ensures AreHeld(DevHostActionResult, {Ok, JobId, Error})
  {
  }

  lemma RepositoryHeld()
    ensures AreHeld(RepoReadResult, {Ok, CommitSha, Files, Entries, Error})
    ensures AreHeld(RepoDefaultBranchResult, {Ok, DefaultBranch, Error})
  {
  }

  lemma PlanHeld()
    ensures AreHeld(MetricsCapabilitiesResult, {Ok, Capabilities, Error})
    ensures AreHeld(DeployCancelResult, {Ok, Outcome, Error})
  {
  }

  lemma UpdateHeld(kind: Kind)
    requires IsUpdate(kind)
    ensures AreHeld(kind, {Ok, Error, ErrorCode, UpgradeId})
  {
  }

  lemma CommandHeld()
    ensures AreHeld(CommandAck, {DaemonReceivedAt})
    ensures AreHeld(CommandOutcome, {Ok, Result, Error, DaemonReceivedAt, DaemonRespondedAt})
  {
  }

  lemma CarriedHeld(kind: Kind)
    requires Carried(kind).Some?
    ensures AreHeld(kind, Carried(kind).value)
  {
    match kind
    case AddressesResult | ManagedLogsResult | ContainerLogsResult | FabricPathsResult => ReadingsHeld();
    case ManagedHealthResult | ManagedPermissionsResult => ManagedHeld();
    case ServerNetworkCheckResult | DevHostActionResult => HostHeld();
    case RepoReadResult | RepoDefaultBranchResult => RepositoryHeld();
    case MetricsCapabilitiesResult | DeployCancelResult => PlanHeld();
    case UpdateResult | InstanceUpdateResult => UpdateHeld(kind);
    case CommandAck | CommandOutcome => CommandHeld();
    case DevSyncResult | TunnelTokenResult | PublicUrlsUpdateResult | MetricsLiveStartResult => PlainHeld(kind);
    case _ => StopHeld(kind);
  }

  /**
   * What becomes of an accepted message: nothing exactly when it answers no
   * request, and otherwise an envelope that holds every field of its kind as the
   * message has it, present or absent, and no other field.
   */
  lemma EnvelopeHoldsPayload(m: Message)
    requires !m.kind.Unlisted?
    ensures ToEnvelope(m).None? <==> FireAndForget(m.kind)
    ensures ToEnvelope(m).Some? ==>
              var e := ToEnvelope(m).value;
              && e.kind == m.kind && e.requestId == Look(m.fields, Id) && e.at == Look(m.fields, At)
              && (forall key :: Holds(m.kind, key) ==> Look(e.fields, key) == Look(m.fields, key))
              && (forall key :: key in e.fields ==> Holds(m.kind, key))
  {
    CarriedAnswers(m.kind);
    if Carried(m.kind).Some? {
      CarriedHeld(m.kind);
      forall key | Holds(m.kind, key)
        ensures Look(Restrict(m.fields, Carried(m.kind).value), key) == Look(m.fields, key)
      {
        LookRestrict(m.fields, Carried(m.kind).value, key);
      }
    }
  }

  /**
   * From the frame to the envelope: of an accepted frame that answers a request,
   * the envelope holds each field of its kind with the value the daemon sent,
   * except in a command outcome whose result is over the cap.
   */
  lemma AcceptedPayloadArrives(h: Host, rawBytes: nat, parsed: Parsed, key: Key)
    requires ValidateFrame(h, rawBytes, parsed).Accepted? && Holds(parsed.message.kind, key)
    requires !(parsed.message.kind.CommandOutcome? && Oversized(h, parsed.message.fields))
    ensures var e := ToEnvelope(ValidateFrame(h, rawBytes, parsed).message);
            e.Some? && Look(e.value.fields, key) == Look(parsed.message.fields, key)
  {
    var m := ValidateFrame(h, rawBytes, parsed).message;
    EnvelopeHoldsPayload(m);
  }

  /**
   * Which frames close the socket: the oversized, what is no record, and a listed
   * type with a bad field. A type or a value that only a newer daemon knows does
   * not, so that it may send something optional.
   */
  lemma IgnoredExactly(h: Host, rawBytes: nat, parsed: Parsed)
    ensures ValidateFrame(h, rawBytes, parsed).Ignored? <==>
              && rawBytes <= MAX_FRAME_BYTES && parsed.Frame?
              && (parsed.message.kind.Unlisted?
                  || FieldIssue(h, parsed.message.kind, parsed.message.fields).UnknownValue?)
    ensures ValidateFrame(h, rawBytes, parsed).Rejected? <==>
              || rawBytes > MAX_FRAME_BYTES || !parsed.Frame?
              || (!parsed.message.kind.Unlisted?
                  && FieldIssue(h, parsed.message.kind, parsed.message.fields).Invalid?)
  {
  }

  /**
   * What becomes of the features of an accepted `hello`: exactly the known,
   * well-formed names among the first 4096 entries are left, each once, every
   * other field is as it was sent, and there is a note exactly when any was dropped.
   */
  lemma HelloKeepsKnown(h: Host, rawBytes: nat, m: Message)
    requires m.kind.Hello? && IsArray(Look(m.fields, FeatureList)) && ValidateFrame(h, rawBytes, Frame(m)).Accepted?
    ensures var sent, r := m.fields[FeatureList].items, ValidateFrame(h, rawBytes, Frame(m));
            && IsArray(Look(r.message.fields, FeatureList)) && r.message.kind == m.kind
            && (var kept := r.message.fields[FeatureList].items;
                && (forall entry :: entry in kept <==>
                      && entry.Str? && 1 <= |entry.s| <= 64 && entry.s in h.known
                      && entry in (if |sent| <= 4096 then sent else sent[..4096]))
                && (forall i, j :: 0 <= i < j < |kept| ==> kept[i] != kept[j])
                && (r.notes == [] <==> |kept| == |sent|))
            && (forall key :: key != FeatureList ==> Look(r.message.fields, key) == Look(m.fields, key))
  {
    var sent := m.fields[FeatureList].items;
    var f := Features.Filter(sent, h.known).features;
    Features.FilterKeepsKnown(sent, h.known);
    var kept := Features.AsEntries(f);
    forall entry ensures entry in kept <==> entry.Str? && entry.s in f {
      if entry.Str? && entry.s in f {
        var i :| 0 <= i < |f| && f[i] == entry.s;
        assert kept[i] == entry;
      }
    }
  }
}
