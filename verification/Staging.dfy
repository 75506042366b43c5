/** A transaction as a value: what its staging calls, reads and commit do to it, as pure functions of the
    answers the backend gives. The class StorageTransaction is proved to follow these functions. */
module Staging {
  import opened Common
  import opened Conditions
  import opened MockStorages

  datatype TxState = Active | Preparing | Committing | Committed | RolledBack | Aborted

  /** A staged operation and the conditions it will be published under. */
  datatype Staged = Staged(kind: Kind, data: Data, conds: Conditions)

  /** `order` lists the staged URIs in staging order; `items` and `meta` cache what was read. */
  datatype Tx = Tx(
    state: TxState,
    closed: bool,
    readOnly: bool,
    ops: map<string, Staged>,
    order: seq<string>,
    items: map<string, Data>,
    meta: map<string, ETag>)

  function NewTx(readOnly: bool): Tx {
    Tx(Active, false, readOnly, map[], [], map[], map[])
  }

  /** closed, timed out, or neither */
  function CheckState(tx: Tx, expired: bool): Option<Code> {
    if tx.closed then Some(TransactionClosed) else if expired then Some(Timeout) else None
  }

  /** Why a staging call is turned away before it looks anything up. */
  function StagingRefusal(tx: Tx, expired: bool): Option<Code> {
    if CheckState(tx, expired).Some? then CheckState(tx, expired)
    else if tx.state != Active then Some(TransactionClosed)
    else if tx.readOnly then Some(InvalidOperation)
    else None
  }

  /** What the transaction itself knows about the URI: staged, cached, or nothing. */
  function Known(tx: Tx, uri: string): Option<Option<ETag>> {
    if uri in tx.ops then
      Some(if tx.ops[uri].kind.PutKind? then Some(Digest(tx.ops[uri].data)) else None)
    else if uri in tx.meta then Some(Some(tx.meta[uri]))
    else None
  }

  /** lookupForCondition: the current ETag, if the object exists, given what Head would answer. */
  function LookupETag(tx: Tx, uri: string, head: Result<ETag>): Result<Option<ETag>> {
    match Known(tx, uri)
    case Some(etag) => Ok(etag)
    case None =>
      match head
      case Ok(etag) => Ok(Some(etag))
      case Err(error) => if error.code == NotFound then Ok(None) else Err(error)
  }

  /** A lookup that had to ask the backend remembers the answer. */
  function AfterLookup(tx: Tx, uri: string, head: Result<ETag>): Tx {
    if Known(tx, uri).None? && head.Ok? then tx.(meta := tx.meta[uri := head.value]) else tx
  }

  function Stage(tx: Tx, uri: string, op: Staged): Tx {
    tx.(ops := tx.ops[uri := op], order := if uri in tx.order then tx.order else tx.order + [uri])
  }

  /** The conditions a put is staged under: its own, else those already staged for the URI, else that the
      object still be what the lookup found. */
  function PutConditions(tx: Tx, uri: string, current: Option<ETag>, conds: Conditions): Conditions {
    if conds.ifMatch != Unset || conds.ifNoMatch != Unset then conds
    else if uri in tx.ops then tx.ops[uri].conds
    else if current.Some? then conds.(ifMatch := Tag(current.value))
    else conds.(ifNoMatch := Tag(Star))
  }

  function DeleteConditions(tx: Tx, uri: string, current: ETag, conds: Conditions): Conditions {
    if conds.ifMatch != Unset then conds
    else if uri in tx.ops then tx.ops[uri].conds
    else conds.(ifMatch := Tag(current))
  }

  function StagePut(tx: Tx, expired: bool, head: Result<ETag>, uri: string, data: Data, conds: Conditions)
    : (Tx, Option<Code>)
  {
    if StagingRefusal(tx, expired).Some? then (tx, StagingRefusal(tx, expired))
    else
      match LookupETag(tx, uri, head)
      case Err(error) => (tx, Some(error.code))
      case Ok(current) =>
        var seen := AfterLookup(tx, uri, head);
        var refused := ApplyConditionalPut(current, conds);
        if refused.Some? then (seen, refused)
        else (Stage(seen, uri, Staged(PutKind, data, PutConditions(tx, uri, current, conds))), None)
  }

  function StageDelete(tx: Tx, expired: bool, head: Result<ETag>, uri: string, conds: Conditions): (Tx, Option<Code>) {
    if StagingRefusal(tx, expired).Some? then (tx, StagingRefusal(tx, expired))
    else
      match LookupETag(tx, uri, head)
      case Err(error) => (tx, Some(error.code))
      case Ok(current) =>
        var seen := AfterLookup(tx, uri, head);
        var refused := ApplyConditionalDelete(current, conds);
        if refused.Some? then (seen, refused)
        else if current.None? then (seen, Some(NotFound))
        else (Stage(seen, uri, Staged(DeleteKind, "", DeleteConditions(tx, uri, current.value, conds))), None)
  }

  /** A read through the transaction, given what the backend's Get would answer. */
  function ReadTx(tx: Tx, expired: bool, get: Result<Object>, uri: string, conds: Conditions): (Tx, Result<Object>) {
    if CheckState(tx, expired).Some? then (tx, Err(Error(CheckState(tx, expired).value, false)))
    else if uri in tx.ops && tx.ops[uri].kind.DeleteKind? then (tx, Err(Error(NotFound, false)))
    else if uri in tx.ops && tx.ops[uri].kind.PutKind? then (tx, Conditional(Stored(tx.ops[uri].data), conds))
    else if uri in tx.items && uri in tx.meta then (tx, Conditional(Object(tx.items[uri], tx.meta[uri]), conds))
    else
      match get
      case Err(error) => (tx, get)
      case Ok(found) => (tx.(items := tx.items[uri := found.data], meta := tx.meta[uri := found.etag]), get)
  }

  function Conditional(found: Object, conds: Conditions): Result<Object> {
    var refused := ApplyConditionalGet(found.etag, conds);
    if refused.Some? then Err(Error(refused.value, false)) else Ok(found)
  }

  function HeadTx(tx: Tx, expired: bool, head: Result<ETag>, uri: string): (Tx, Result<ETag>) {
    if CheckState(tx, expired).Some? then (tx, Err(Error(CheckState(tx, expired).value, false)))
    else if uri in tx.ops && tx.ops[uri].kind.DeleteKind? then (tx, Err(Error(NotFound, false)))
    else if uri in tx.ops && tx.ops[uri].kind.PutKind? then (tx, Ok(Digest(tx.ops[uri].data)))
    else if uri in tx.meta then (tx, Ok(tx.meta[uri]))
    else
      match head
      case Err(error) => (tx, head)
      case Ok(etag) => (tx.(meta := tx.meta[uri := etag]), head)
  }

  /** Orderly: `order` names each staged URI once and nothing else, every staged operation is a put or a
      delete, every cached item has its ETag cached, and closed means ended. */
  ghost predicate Orderly(tx: Tx) {
    && (forall i, j :: 0 <= i < j < |tx.order| ==> tx.order[i] != tx.order[j])
    && (forall uri :: uri in tx.order <==> uri in tx.ops)
    && (forall uri :: uri in tx.ops ==> tx.ops[uri].kind.PutKind? || tx.ops[uri].kind.DeleteKind?)
    && (forall uri :: uri in tx.items ==> uri in tx.meta)
    && (tx.closed <==> tx.state.Committed? || tx.state.RolledBack?)
  }

  // ----- publishing -----

  function OpFor(tx: Tx, uri: string): BatchOp
    requires uri in tx.ops
  {
    BatchOp(tx.ops[uri].kind, uri, tx.ops[uri].data, tx.ops[uri].conds)
  }

  /** The batch Commit hands to the backend. */
  function BatchOf(tx: Tx, order: seq<string>): (ops: seq<BatchOp>)
    requires forall uri :: uri in order ==> uri in tx.ops
    ensures |ops| == |order| && forall i :: 0 <= i < |ops| ==> ops[i] == OpFor(tx, order[i])
  {
    if order == [] then [] else BatchOf(tx, order[..|order| - 1]) + [OpFor(tx, order[|order| - 1])]
  }

  /** The objects became the old ones with every staged operation applied, in order. */
  ghost predicate Published(tx: Tx, before: Objects, after: Objects) {
    Orderly(tx) && BatchRun(before, BatchOf(tx, tx.order)) == Ok(after)
  }

  /** Prepare accepts: every object to be deleted is there. */
  predicate Preparable(tx: Tx, objects: Objects) {
    forall uri :: uri in tx.ops && tx.ops[uri].kind.DeleteKind? ==> uri in objects
  }
}
