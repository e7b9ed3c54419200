/** TransferDB.kt: the S3 transfer table. The content provider behind
    `transferDatabaseHelper` is not part of this model; the table is a map
    from row id to record, ids are handed out in increasing order, and a
    query returns rows in id order. TransferTable, TransferType and
    TransferState are not part of this model either: their constants are
    taken as the enum names, and the two columns a selection names as
    "state" and "type". */
module TransferDb {
  import opened Wrappers
  import opened TransferOptions

  datatype TransferType = Upload | Download | AnyType

  function TypeName(t: TransferType): string {
    match t
    case Upload => "UPLOAD"
    case Download => "DOWNLOAD"
    case AnyType => "ANY"
  }

  datatype TransferState =
    | Waiting | InProgress | Paused | ResumedWaiting | Completed | Canceled | Failed
    | WaitingForNetwork | PartCompleted | PendingCancel | PendingPause | PendingNetworkDisconnect | Unknown

  function StateName(s: TransferState): string {
    match s
    case Waiting => "WAITING"
    case InProgress => "IN_PROGRESS"
    case Paused => "PAUSED"
    case ResumedWaiting => "RESUMED_WAITING"
    case Completed => "COMPLETED"
    case Canceled => "CANCELED"
    case Failed => "FAILED"
    case WaitingForNetwork => "WAITING_FOR_NETWORK"
    case PartCompleted => "PART_COMPLETED"
    case PendingCancel => "PENDING_CANCEL"
    case PendingPause => "PENDING_PAUSE"
    case PendingNetworkDisconnect => "PENDING_NETWORK_DISCONNECT"
    case Unknown => "UNKNOWN"
  }

  datatype LocalFile = LocalFile(absolutePath: string, length: int)

  /** One row; `None` is a column left NULL. */
  datatype TransferRecord = TransferRecord(
    transferType: TransferType,
    state: TransferState,
    bucket: Option<string>,
    key: Option<string>,
    file: Option<string>,
    bytesCurrent: int,
    bytesTotal: Option<int>,
    isMultipart: int,
    partNum: int,
    fileOffset: Option<int>,
    multipartId: Option<string>,
    isLastPart: Option<int>,
    isEncrypted: int,
    cannedAcl: Option<string>,
    transferUtilityOptions: Option<string>,
    eTag: Option<string>,
    mainUploadId: Option<int>)

  // --------------------------------------------------------- new records

  /** generateContentValuesForMultiPartUpload (object metadata columns are
      not modelled). The ACL and options columns are written only when given. */
  function MultiPartUploadValues(bucket: Option<string>, key: Option<string>, file: LocalFile, fileOffset: int,
                                 partNumber: int, uploadId: string, bytesTotal: int, isLastPart: int,
                                 cannedAcl: Option<string>, tuOptions: Option<TransferOptions>,
                                 toJson: TransferOptions -> string): (r: TransferRecord)
    ensures r.transferType == Upload && r.state == Waiting && r.bytesCurrent == 0
    ensures r.isMultipart == 1 && r.isEncrypted == 0
    ensures r.bytesTotal == Some(bytesTotal) && r.partNum == partNumber && r.fileOffset == Some(fileOffset)
    ensures r.multipartId == Some(uploadId) && r.isLastPart == Some(isLastPart) && r.file == Some(file.absolutePath)
    ensures r.cannedAcl == cannedAcl
    ensures r.transferUtilityOptions.Some? <==> tuOptions.Some?
    ensures tuOptions.Some? ==> r.transferUtilityOptions == Some(toJson(tuOptions.value))
  {
    TransferRecord(Upload, Waiting, bucket, key, Some(file.absolutePath), 0, Some(bytesTotal), 1, partNumber,
                   Some(fileOffset), Some(uploadId), Some(isLastPart), 0, cannedAcl,
                   if tuOptions.Some? then Some(toJson(tuOptions.value)) else None, None, None)
  }

  /** generateContentValuesForSinglePartTransfer. The total is recorded for
      uploads only, and the options column is always written: Gson renders a
      null options object as the text "null". */
  function SinglePartTransferValues(transferType: TransferType, bucket: string, key: string, file: Option<LocalFile>,
                                    cannedAcl: Option<string>, tuOptions: Option<TransferOptions>,
                                    toJson: TransferOptions -> string): (r: TransferRecord)
    ensures r.transferType == transferType && r.state == Waiting && r.bytesCurrent == 0
    ensures r.isMultipart == 0 && r.partNum == 0 && r.isEncrypted == 0
    ensures r.bytesTotal.Some? <==> transferType == Upload && file.Some?
    ensures r.bytesTotal.Some? ==> r.bytesTotal == Some(file.value.length)
    ensures r.file.Some? <==> file.Some?
    ensures r.cannedAcl == cannedAcl
    ensures r.transferUtilityOptions == Some(if tuOptions.Some? then toJson(tuOptions.value) else "null")
    ensures r.multipartId.None? && r.fileOffset.None?
  {
    var path := if file.Some? then Some(file.value.absolutePath) else None;
    var total := if transferType == Upload && file.Some? then Some(file.value.length) else None;
    var options := if tuOptions.Some? then toJson(tuOptions.value) else "null";
    TransferRecord(transferType, Waiting, Some(bucket), Some(key), path, 0, total, 0, 0,
                   None, None, None, 0, cannedAcl, Some(options), None, None)
  }

  // ------------------------------------------------------- bulk transitions

  /** States `pauseAllWithType` and `updateNetworkDisconnected` act on. */
  const RunningStates: set<TransferState> := {InProgress, ResumedWaiting, Waiting}
  /** States `cancelAllWithType` acts on. */
  const CancellableStates: set<TransferState> := {InProgress, ResumedWaiting, Waiting, Paused, WaitingForNetwork}
  /** States `updateNetworkConnected` acts on. */
  const DisconnectedStates: set<TransferState> := {PendingNetworkDisconnect, WaitingForNetwork}
  /** States that `updateState(id, FAILED)` leaves alone. */
  const FailureProofStates: set<TransferState> := {Completed, PendingNetworkDisconnect, Paused, Canceled, WaitingForNetwork}

  /** The selection "state in (...)" and, unless the type is ANY, "and type=?". */
  predicate Selected(r: TransferRecord, states: set<TransferState>, transferType: TransferType) {
    r.state in states && (transferType == AnyType || r.transferType == transferType)
  }

  function SelectedIds(records: map<int, TransferRecord>, states: set<TransferState>, transferType: TransferType): set<int> {
    set id | id in records && Selected(records[id], states, transferType)
  }

  /** The table after `UPDATE ... SET state = target WHERE <selection>`. */
  function MoveSelected(records: map<int, TransferRecord>, states: set<TransferState>, transferType: TransferType,
                        target: TransferState): (r: map<int, TransferRecord>)
    ensures r.Keys == records.Keys
    ensures forall id :: id in records && Selected(records[id], states, transferType) ==> r[id] == records[id].(state := target)
    ensures forall id :: id in records && !Selected(records[id], states, transferType) ==> r[id] == records[id]
  {
    map id | id in records :: if Selected(records[id], states, transferType) then records[id].(state := target) else records[id]
  }

  // ---------------------------------------------------------- placeholders

  /** "?" followed by n-1 copies of ",?". */
  function Placeholders(n: nat): string
    requires n >= 1
  {
    if n == 1 then "?" else Placeholders(n - 1) + ",?"
  }

  lemma {:induction false} PlaceholdersShape(n: nat)
    requires n >= 1
    ensures |Placeholders(n)| == 2 * n - 1
    ensures forall i :: 0 <= i < |Placeholders(n)| ==> Placeholders(n)[i] == (if i % 2 == 0 then '?' else ',')
  {
    if n > 1 {
      PlaceholdersShape(n - 1);
    }
  }

  function CountChar(s: string, c: char): nat {
    if s == [] then 0 else (if s[|s| - 1] == c then 1 else 0) + CountChar(s[..|s| - 1], c)
  }

  lemma {:induction false} CountCharAppend(a: string, b: string, c: char)
    ensures CountChar(a + b, c) == CountChar(a, c) + CountChar(b, c)
    decreases |b|
  {
    if b != [] {
      assert (a + b)[..|a + b| - 1] == a + b[..|b| - 1];
      CountCharAppend(a, b[..|b| - 1], c);
    } else {
      assert a + b == a;
    }
  }

  /** The placeholder string holds exactly n marks. */
  lemma {:induction false} PlaceholdersCount(n: nat)
    requires n >= 1
    ensures CountChar(Placeholders(n), '?') == n
  {
    if n > 1 {
      PlaceholdersCount(n - 1);
      CountCharAppend(Placeholders(n - 1), ",?", '?');
      assert CountChar(",?", '?') == 1 by {
        assert ",?"[..1] == ",";
        assert ","[..0] == "";
      }
    }
  }

  /** `createPlaceholders`: null for n <= 0. */
  method CreatePlaceholders(numPlaceHolders: int) returns (r: Option<string>)
    ensures numPlaceHolders <= 0 ==> r == None
    ensures numPlaceHolders > 0 ==> r == Some(Placeholders(numPlaceHolders))
  {
    if numPlaceHolders <= 0 {
      return None;
    }
    var builder := "?";
    for index := 1 to numPlaceHolders
      invariant builder == Placeholders(index)
    {
      builder := builder + ",?";
    }
    r := Some(builder);
  }

  // ----------------------------------------- queryTransfersWithTypeAndStates

  const StateColumn := "state"
  const TypeColumn := "type"

  /** How Kotlin renders the placeholder string inside a template: null
      becomes the text "null". */
  function PlaceholderText(n: int): string {
    if n <= 0 then "null" else Placeholders(n)
  }

  /** The selection as written at lines 387 and 396: in
      "$TransferTable.COLUMN_STATE" the template takes only the name
      TransferTable, so the text is that object's toString() followed by
      the literal ".COLUMN_STATE", not the column's name. */
  function TypeAndStatesSelectionAsWritten(tableObjectText: string, transferType: TransferType, numStates: int): string {
    tableObjectText + ".COLUMN_STATE in (" + PlaceholderText(numStates) + ")"
    + (if transferType == AnyType then "" else " and " + tableObjectText + ".COLUMN_TYPE=?")
  }

  /** The evidently intended selection, naming the columns themselves. */
  function TypeAndStatesSelection(transferType: TransferType, numStates: int): string {
    StateCondition(numStates) + TypeCondition(transferType)
  }

  function StateCondition(numStates: int): string {
    StateColumn + " in (" + PlaceholderText(numStates) + ")"
  }

  function TypeCondition(transferType: TransferType): string {
    if transferType == AnyType then "" else " and " + TypeColumn + "=?"
  }

  lemma {:induction false} NoDotInPlaceholders(n: nat)
    requires n >= 1
    ensures '.' !in Placeholders(n)
  {
    PlaceholdersShape(n);
  }

  /** Whatever text the object renders to, the written selection names a
      dotted column that the intended one never contains. */
  lemma TypeAndStatesSelectionMisnamesColumn(tableObjectText: string, transferType: TransferType, numStates: int)
    ensures '.' in TypeAndStatesSelectionAsWritten(tableObjectText, transferType, numStates)
    ensures '.' !in TypeAndStatesSelection(transferType, numStates)
    ensures TypeAndStatesSelectionAsWritten(tableObjectText, transferType, numStates) != TypeAndStatesSelection(transferType, numStates)
  {
    var written := TypeAndStatesSelectionAsWritten(tableObjectText, transferType, numStates);
    assert written[|tableObjectText|] == '.';
    if numStates > 0 {
      NoDotInPlaceholders(numStates);
    }
    assert '.' !in StateColumn + " in (";
    assert '.' !in StateCondition(numStates);
    assert '.' !in TypeCondition(transferType);
  }

  lemma SelectionMarksMatchArgs(transferType: TransferType, numStates: int)
    requires numStates >= 1
    ensures CountChar(TypeAndStatesSelection(transferType, numStates), '?')
         == numStates + (if transferType == AnyType then 0 else 1)
  {
    StateConditionMarks(numStates);
    TypeConditionMarks(transferType);
    CountCharAppend(StateCondition(numStates), TypeCondition(transferType), '?');
  }

  lemma StateConditionMarks(numStates: int)
    requires numStates >= 1
    ensures CountChar(StateCondition(numStates), '?') == numStates
  {
    var p := Placeholders(numStates);
    var open := StateColumn + " in (";
    assert StateCondition(numStates) == (open + p) + ")";
    PlaceholdersCount(numStates);
    CountCharAppend(open, p, '?');
    CountCharAppend(open + p, ")", '?');
    NoMarks(open);
    NoMarks(")");
  }

  lemma TypeConditionMarks(transferType: TransferType)
    ensures CountChar(TypeCondition(transferType), '?') == if transferType == AnyType then 0 else 1
  {
    if transferType != AnyType {
      var mid := " and " + TypeColumn + "=";
      assert TypeCondition(transferType) == mid + "?";
      CountCharAppend(mid, "?", '?');
      NoMarks(mid);
      assert CountChar("?", '?') == 1 by { assert "?"[..0] == ""; }
    }
  }

  lemma {:induction false} NoMarks(s: string)
    requires '?' !in s
    ensures CountChar(s, '?') == 0
    decreases |s|
  {
    if s != [] {
      NoMarks(s[..|s| - 1]);
    }
  }

  function StateNames(states: seq<TransferState>): seq<string> {
    if states == [] then [] else StateNames(states[..|states| - 1]) + [StateName(states[|states| - 1])]
  }

  /** The selection arguments of lines 388-403: every state's name, then the
      type's name unless the type is ANY. */
  method TypeAndStatesSelectionArgs(transferType: TransferType, states: seq<TransferState>) returns (args: seq<string>)
    ensures args == StateNames(states) + (if transferType == AnyType then [] else [TypeName(transferType)])
    ensures |args| == |states| + (if transferType == AnyType then 0 else 1)
  {
    args := [];
    var index := 0;
    while index < |states|
      invariant 0 <= index <= |states|
      invariant args == StateNames(states[..index]) && |args| == index
    {
      assert states[..index + 1][..index] == states[..index];
      args := args + [StateName(states[index])];
      index := index + 1;
    }
    assert states[..|states|] == states;
    if transferType != AnyType {
      args := args + [TypeName(transferType)];
    }
  }

  lemma {:induction false} StateNamesLength(states: seq<TransferState>)
    ensures |StateNames(states)| == |states|
  {
    if states != [] {
      StateNamesLength(states[..|states| - 1]);
    }
  }

  // ------------------------------------------------------------- cursors

  /** queryBytesTransferredByMainUploadId over the rows with id below n: the
      BYTES_TOTAL of the upload's parts in PART_COMPLETED; a NULL total reads as 0. */
  function CompletedPartBytes(records: map<int, TransferRecord>, mainUploadId: int, n: int): int
    decreases n
  {
    if n <= 0 then 0
    else CompletedPartBytes(records, mainUploadId, n - 1)
         + (if n - 1 in records && records[n - 1].mainUploadId == Some(mainUploadId) && records[n - 1].state == PartCompleted
            then records[n - 1].bytesTotal.GetOr(0) else 0)
  }

  /** Parts in any other state contribute nothing. */
  lemma {:induction false} CompletedPartBytesWithoutCompletedParts(records: map<int, TransferRecord>, mainUploadId: int, n: int)
    requires forall id :: id in records && records[id].mainUploadId == Some(mainUploadId) ==> records[id].state != PartCompleted
    ensures CompletedPartBytes(records, mainUploadId, n) == 0
    decreases n
  {
    if n > 0 {
      CompletedPartBytesWithoutCompletedParts(records, mainUploadId, n - 1);
    }
  }

  /** Changing a row that is not a completed part of this upload, into
      another such row, leaves the sum alone. */
  lemma {:induction false} CompletedPartBytesFrame(records: map<int, TransferRecord>, mainUploadId: int, n: int,
                                                   id: int, r: TransferRecord)
    requires id in records
    requires !(records[id].mainUploadId == Some(mainUploadId) && records[id].state == PartCompleted)
    requires !(r.mainUploadId == Some(mainUploadId) && r.state == PartCompleted)
    ensures CompletedPartBytes(records[id := r], mainUploadId, n) == CompletedPartBytes(records, mainUploadId, n)
    decreases n
  {
    if n > 0 {
      CompletedPartBytesFrame(records, mainUploadId, n - 1, id, r);
    }
  }

  lemma {:induction false} CompletedPartBytesNonNegative(records: map<int, TransferRecord>, mainUploadId: int, n: int)
    requires forall id :: id in records && records[id].bytesTotal.Some? ==> records[id].bytesTotal.value >= 0
    ensures CompletedPartBytes(records, mainUploadId, n) >= 0
    decreases n
  {
    if n > 0 {
      CompletedPartBytesNonNegative(records, mainUploadId, n - 1);
    }
  }

  datatype PartETag = PartETag(partNumber: int, eTag: Option<string>)

  /** queryPartETagsOfUpload over the rows with id below n: one entry per
      part of the upload, whatever its state. */
  function PartETags(records: map<int, TransferRecord>, mainUploadId: int, n: int): (tags: seq<PartETag>)
    ensures |tags| <= if n <= 0 then 0 else n
    decreases n
  {
    if n <= 0 then []
    else
      var earlier := PartETags(records, mainUploadId, n - 1);
      if n - 1 in records && records[n - 1].mainUploadId == Some(mainUploadId) then
        earlier + [PartETag(records[n - 1].partNum, records[n - 1].eTag)]
      else earlier
  }

  /** Every listed tag belongs to a part of the upload. */
  lemma {:induction false} PartETagsBelongToUpload(records: map<int, TransferRecord>, mainUploadId: int, n: int, i: int)
    requires 0 <= i < |PartETags(records, mainUploadId, n)|
    ensures exists id :: 0 <= id < n && id in records && records[id].mainUploadId == Some(mainUploadId)
                      && PartETags(records, mainUploadId, n)[i] == PartETag(records[id].partNum, records[id].eTag)
    decreases n
  {
    var earlier := PartETags(records, mainUploadId, n - 1);
    if i < |earlier| {
      PartETagsBelongToUpload(records, mainUploadId, n - 1, i);
    } else {
      assert PartETags(records, mainUploadId, n)[i] == PartETag(records[n - 1].partNum, records[n - 1].eTag);
    }
  }

  // ----------------------------------------------------------------- table

  class TransferDB {
    var records: map<int, TransferRecord>
    var nextId: int

    ghost predicate Valid()
      reads this
    {
      nextId >= 0 && forall id :: id in records ==> 0 <= id < nextId
    }

    constructor ()
      ensures Valid() && records == map[] && nextId == 0
    {
      records := map[];
      nextId := 0;
    }

    method Insert(values: TransferRecord) returns (id: int)
      requires Valid()
      modifies this
      ensures Valid()
      ensures id == old(nextId) && id !in old(records)
      ensures records == old(records)[id := values] && nextId == old(nextId) + 1
    {
      id := nextId;
      records := records[id := values];
      nextId := nextId + 1;
    }

    method InsertMultipartUploadRecord(bucket: string, key: string, file: LocalFile, fileOffset: int, partNumber: int,
                                       uploadId: string, bytesTotal: int, isLastPart: int,
                                       tuOptions: Option<TransferOptions>, toJson: TransferOptions -> string)
      returns (id: int)
      requires Valid()
      modifies this
      ensures Valid() && id !in old(records)
      ensures records == old(records)[id := MultiPartUploadValues(Some(bucket), Some(key), file, fileOffset, partNumber,
                                                                  uploadId, bytesTotal, isLastPart, None, tuOptions, toJson)]
    {
      id := Insert(MultiPartUploadValues(Some(bucket), Some(key), file, fileOffset, partNumber, uploadId, bytesTotal,
                                         isLastPart, None, tuOptions, toJson));
    }

    method InsertSingleTransferRecord(transferType: TransferType, bucket: string, key: string, file: Option<LocalFile>,
                                      tuOptions: Option<TransferOptions>, cannedAcl: Option<string>,
                                      toJson: TransferOptions -> string)
      returns (id: int)
      requires Valid()
      modifies this
      ensures Valid() && id !in old(records)
      ensures records == old(records)[id := SinglePartTransferValues(transferType, bucket, key, file, cannedAcl, tuOptions, toJson)]
    {
      id := Insert(SinglePartTransferValues(transferType, bucket, key, file, cannedAcl, tuOptions, toJson));
    }

    method UpdateBytesTransferred(id: int, bytes: int) returns (count: int)
      requires Valid()
      modifies this
      ensures Valid() && nextId == old(nextId)
      ensures id in old(records) ==> records == old(records)[id := old(records)[id].(bytesCurrent := bytes)] && count == 1
      ensures id !in old(records) ==> records == old(records) && count == 0
    {
      if id in records {
        records := records[id := records[id].(bytesCurrent := bytes)];
        count := 1;
      } else {
        count := 0;
      }
    }

    method UpdateBytesTotalForDownload(id: int, bytes: int) returns (count: int)
      requires Valid()
      modifies this
      ensures Valid() && nextId == old(nextId)
      ensures id in old(records) ==> records == old(records)[id := old(records)[id].(bytesTotal := Some(bytes))] && count == 1
      ensures id !in old(records) ==> records == old(records) && count == 0
    {
      if id in records {
        records := records[id := records[id].(bytesTotal := Some(bytes))];
        count := 1;
      } else {
        count := 0;
      }
    }

    /** `updateState`: a move to FAILED is refused for a record that was
        paused, cancelled, completed or cut off from the network, since
        those stops make the worker report failure too. */
    method UpdateState(id: int, state: TransferState) returns (count: int)
      requires Valid()
      modifies this
      ensures Valid() && nextId == old(nextId)
      ensures id in old(records) && (state != Failed || old(records)[id].state !in FailureProofStates) ==>
        records == old(records)[id := old(records)[id].(state := state)] && count == 1
      ensures id !in old(records) || (state == Failed && old(records)[id].state in FailureProofStates) ==>
        records == old(records) && count == 0
    {
      if id in records && (state != Failed || records[id].state !in FailureProofStates) {
        records := records[id := records[id].(state := state)];
        count := 1;
      } else {
        count := 0;
      }
    }

    method UpdateMultipartId(id: int, multipartId: Option<string>) returns (count: int)
      requires Valid()
      modifies this
      ensures Valid() && nextId == old(nextId)
      ensures id in old(records) ==> records == old(records)[id := old(records)[id].(multipartId := multipartId)] && count == 1
      ensures id !in old(records) ==> records == old(records) && count == 0
    {
      if id in records {
        records := records[id := records[id].(multipartId := multipartId)];
        count := 1;
      } else {
        count := 0;
      }
    }

    method UpdateETag(id: int, eTag: Option<string>) returns (count: int)
      requires Valid()
      modifies this
      ensures Valid() && nextId == old(nextId)
      ensures id in old(records) ==> records == old(records)[id := old(records)[id].(eTag := eTag)] && count == 1
      ensures id !in old(records) ==> records == old(records) && count == 0
    {
      if id in records {
        records := records[id := records[id].(eTag := eTag)];
        count := 1;
      } else {
        count := 0;
      }
    }

    method UpdateNetworkDisconnected() returns (count: int)
      requires Valid()
      modifies this
      ensures Valid() && nextId == old(nextId)
      ensures records == MoveSelected(old(records), RunningStates, AnyType, PendingNetworkDisconnect)
      ensures count == |SelectedIds(old(records), RunningStates, AnyType)|
    {
      count := |SelectedIds(records, RunningStates, AnyType)|;
      records := MoveSelected(records, RunningStates, AnyType, PendingNetworkDisconnect);
    }

    method UpdateNetworkConnected() returns (count: int)
      requires Valid()
      modifies this
      ensures Valid() && nextId == old(nextId)
      ensures records == MoveSelected(old(records), DisconnectedStates, AnyType, ResumedWaiting)
      ensures count == |SelectedIds(old(records), DisconnectedStates, AnyType)|
    {
      count := |SelectedIds(records, DisconnectedStates, AnyType)|;
      records := MoveSelected(records, DisconnectedStates, AnyType, ResumedWaiting);
    }

    method PauseAllWithType(transferType: TransferType) returns (count: int)
      requires Valid()
      modifies this
      ensures Valid() && nextId == old(nextId)
      ensures records == MoveSelected(old(records), RunningStates, transferType, PendingPause)
      ensures count == |SelectedIds(old(records), RunningStates, transferType)|
    {
      count := |SelectedIds(records, RunningStates, transferType)|;
      records := MoveSelected(records, RunningStates, transferType, PendingPause);
    }

    method CancelAllWithType(transferType: TransferType) returns (count: int)
      requires Valid()
      modifies this
      ensures Valid() && nextId == old(nextId)
      ensures records == MoveSelected(old(records), CancellableStates, transferType, PendingCancel)
      ensures count == |SelectedIds(old(records), CancellableStates, transferType)|
    {
      count := |SelectedIds(records, CancellableStates, transferType)|;
      records := MoveSelected(records, CancellableStates, transferType, PendingCancel);
    }

    method QueryAllTransfersWithType(transferType: TransferType) returns (ids: set<int>)
      ensures forall id :: id in ids <==> id in records && (transferType == AnyType || records[id].transferType == transferType)
    {
      ids := set id | id in records && (transferType == AnyType || records[id].transferType == transferType);
    }

    /** queryTransfersWithTypeAndStates with the intended selection. */
    method QueryTransfersWithTypeAndStates(transferType: TransferType, states: seq<TransferState>)
      returns (ids: set<int>, selection: string, args: seq<string>)
      ensures selection == TypeAndStatesSelection(transferType, |states|)
      ensures args == StateNames(states) + (if transferType == AnyType then [] else [TypeName(transferType)])
      ensures forall id :: id in ids <==> id in records && records[id].state in states
                                           && (transferType == AnyType || records[id].transferType == transferType)
      ensures states == [] ==> ids == {}
    {
      selection := TypeAndStatesSelection(transferType, |states|);
      args := TypeAndStatesSelectionArgs(transferType, states);
      ids := set id | id in records && records[id].state in states
                      && (transferType == AnyType || records[id].transferType == transferType);
    }

    method QueryTransferById(id: int) returns (r: Option<TransferRecord>)
      ensures r.Some? <==> id in records
      ensures r.Some? ==> r.value == records[id]
    {
      r := if id in records then Some(records[id]) else None;
    }

    method QueryBytesTransferredByMainUploadId(mainUploadId: int) returns (bytesTotal: int)
      requires Valid()
      ensures bytesTotal == CompletedPartBytes(records, mainUploadId, nextId)
    {
      bytesTotal := 0;
      var row := 0;
      while row < nextId
        invariant 0 <= row <= nextId
        invariant bytesTotal == CompletedPartBytes(records, mainUploadId, row)
      {
        if row in records && records[row].mainUploadId == Some(mainUploadId) && records[row].state == PartCompleted {
          bytesTotal := bytesTotal + records[row].bytesTotal.GetOr(0);
        }
        row := row + 1;
      }
    }

    method QueryPartETagsOfUpload(mainUploadId: int) returns (partETags: seq<PartETag>)
      requires Valid()
      ensures partETags == PartETags(records, mainUploadId, nextId)
    {
      partETags := [];
      var row := 0;
      while row < nextId
        invariant 0 <= row <= nextId
        invariant partETags == PartETags(records, mainUploadId, row)
      {
        if row in records && records[row].mainUploadId == Some(mainUploadId) {
          partETags := partETags + [PartETag(records[row].partNum, records[row].eTag)];
        }
        row := row + 1;
      }
    }

    method DeleteTransferRecords(id: int) returns (count: int)
      requires Valid()
      modifies this
      ensures Valid() && nextId == old(nextId)
      ensures records == old(records) - {id}
      ensures count == if id in old(records) then 1 else 0
    {
      count := if id in records then 1 else 0;
      records := records - {id};
    }
  }

  // ---------------------------------------------------- across operations

  /** Network loss followed by its return leaves every record that either
      step touched in RESUMED_WAITING and every other record as it was. */
  lemma {:induction false} DisconnectThenConnect(records: map<int, TransferRecord>)
    ensures var after := MoveSelected(MoveSelected(records, RunningStates, AnyType, PendingNetworkDisconnect),
                                      DisconnectedStates, AnyType, ResumedWaiting);
      && after.Keys == records.Keys
      && forall id :: id in records ==>
           after[id] == if records[id].state in RunningStates + DisconnectedStates
                        then records[id].(state := ResumedWaiting) else records[id]
  {
    var mid := MoveSelected(records, RunningStates, AnyType, PendingNetworkDisconnect);
    var after := MoveSelected(mid, DisconnectedStates, AnyType, ResumedWaiting);
    forall id | id in records
      ensures after[id] == if records[id].state in RunningStates + DisconnectedStates
                           then records[id].(state := ResumedWaiting) else records[id]
    {
      if records[id].state in RunningStates {
        assert mid[id] == records[id].(state := PendingNetworkDisconnect);
        assert mid[id].(state := ResumedWaiting) == records[id].(state := ResumedWaiting);
      }
    }
  }

  /** Pausing twice is pausing once, and so is cancelling: the target state
      is never one the selection picks. */
  lemma {:induction false} BulkMovesIdempotent(records: map<int, TransferRecord>, transferType: TransferType)
    ensures var once := MoveSelected(records, RunningStates, transferType, PendingPause);
      MoveSelected(once, RunningStates, transferType, PendingPause) == once
    ensures var once := MoveSelected(records, CancellableStates, transferType, PendingCancel);
      MoveSelected(once, CancellableStates, transferType, PendingCancel) == once
  {
    var paused := MoveSelected(records, RunningStates, transferType, PendingPause);
    var repaused := MoveSelected(paused, RunningStates, transferType, PendingPause);
    forall id | id in paused ensures repaused[id] == paused[id] {
      if Selected(records[id], RunningStates, transferType) {
        assert paused[id].state == PendingPause;
      }
    }
    assert repaused == paused;
    var cancelled := MoveSelected(records, CancellableStates, transferType, PendingCancel);
    var recancelled := MoveSelected(cancelled, CancellableStates, transferType, PendingCancel);
    forall id | id in cancelled ensures recancelled[id] == cancelled[id] {
      if Selected(records[id], CancellableStates, transferType) {
        assert cancelled[id].state == PendingCancel;
      }
    }
    assert recancelled == cancelled;
  }

  /** Every record a pause would stop, a cancel also stops. */
  lemma CancelCoversPause(records: map<int, TransferRecord>, transferType: TransferType)
    ensures SelectedIds(records, RunningStates, transferType) <= SelectedIds(records, CancellableStates, transferType)
  {
    forall id | id in SelectedIds(records, RunningStates, transferType)
      ensures id in SelectedIds(records, CancellableStates, transferType)
    {
      assert records[id].state in CancellableStates;
    }
  }
}
