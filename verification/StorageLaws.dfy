/** What the operations of the in-memory backend mean, told without the functions that compute them. */
module StorageLaws {
  import opened Common
  import opened Conditions
  import opened MockStorages
  import opened AtomicBatches

  /** A put stores the content under its digest exactly if both conditions hold of what is there, and changes
      nothing else. */
  lemma PutMeans(objects: Objects, uri: string, data: Data, conds: Conditions)
    ensures var current := if uri in objects then Some(objects[uri].etag) else None;
            PutTo(objects, uri, data, conds) ==
              if MatchHolds(current, conds.ifMatch) && NoneMatchHolds(current, conds.ifNoMatch)
              then Ok(objects[uri := Object(data, Digest(data))])
              else Err(Error(PreconditionFailed, false))
  {
    ConditionsMeaning(CurrentETag(objects, uri), conds);
  }

  /** A delete removes the object exactly if it is there and If-Match holds of it. */
  lemma DeleteMeans(objects: Objects, uri: string, conds: Conditions)
    ensures var current := if uri in objects then Some(objects[uri].etag) else None;
            DeleteFrom(objects, uri, conds) ==
              if !MatchHolds(current, conds.ifMatch) then Err(Error(PreconditionFailed, false))
              else if uri !in objects then Err(Error(NotFound, false))
              else Ok(objects - {uri})
  {
    ConditionsMeaning(CurrentETag(objects, uri), conds);
  }

  /** A get finds the object exactly if it is there and carries the If-Match tag, if one is given, and not the
      If-None-Match tag; a head looks at nothing but whether it is there. */
  lemma GetMeans(objects: Objects, uri: string, conds: Conditions)
    ensures GetFrom(objects, uri, conds) ==
              if uri !in objects then Err(Error(NotFound, false))
              else if conds.ifMatch.Tag? && conds.ifMatch.etag != objects[uri].etag then
                Err(Error(PreconditionFailed, false))
              else if conds.ifNoMatch.Tag? && conds.ifNoMatch.etag == objects[uri].etag then
                Err(Error(NotModified, false))
              else Ok(objects[uri])
    ensures HeadOf(objects, uri) == if uri in objects then Ok(objects[uri].etag) else Err(Error(NotFound, false))
  {
    if uri in objects {
      ConditionsMeaning(Some(objects[uri].etag), conds);
    }
  }

  /** What was put is read back, under the ETag that the put reported; what was deleted is not; and other
      objects read as before. */
  lemma WritesReadBack(objects: Objects, uri: string, data: Data, conds: Conditions, other: string)
    ensures var put := PutTo(objects, uri, data, conds);
            put.Ok? ==>
              && GetFrom(put.value, uri, Unconditional) == Ok(Object(data, Digest(data)))
              && HeadOf(put.value, uri) == Ok(Digest(data))
              && (other != uri ==> GetFrom(put.value, other, Unconditional) == GetFrom(objects, other, Unconditional))
    ensures var del := DeleteFrom(objects, uri, conds);
            del.Ok? ==>
              && GetFrom(del.value, uri, Unconditional) == Err(Error(NotFound, false))
              && (other != uri ==> GetFrom(del.value, other, Unconditional) == GetFrom(objects, other, Unconditional))
  {
    PutMeans(objects, uri, data, conds);
    DeleteMeans(objects, uri, conds);
    if PutTo(objects, uri, data, conds).Ok? {
      GetMeans(PutTo(objects, uri, data, conds).value, uri, Unconditional);
      GetMeans(PutTo(objects, uri, data, conds).value, other, Unconditional);
    }
    if DeleteFrom(objects, uri, conds).Ok? {
      GetMeans(DeleteFrom(objects, uri, conds).value, other, Unconditional);
    }
    GetMeans(objects, other, Unconditional);
  }

  // ----- a batch of commands -----

  /** One command on its own: done or in error, behind a failure that strikes once. */
  lemma SingleCommand(objects: Objects, fault: Option<Fault>, c: Command, stopOnError: bool)
    ensures var armed := fault.Some? && (fault.value.uri == "" || fault.value.uri == c.uri);
            var alone :=
              if c.PutCommand? then PutTo(objects, c.uri, c.data, c.conds) else DeleteFrom(objects, c.uri, c.conds);
            InOrder(objects, fault, [c], stopOnError) ==
              if armed then Trail(objects, None, [fault.value.error])
              else if alone.Ok? then Trail(alone.value, fault, [])
              else Trail(objects, fault, [alone.error])
  {
    assert [c][1..] == [];
    EmptyBatch(objects, fault, stopOnError);
  }

  lemma EmptyBatch(objects: Objects, fault: Option<Fault>, stopOnError: bool)
    ensures InOrder(objects, fault, [], stopOnError) == Trail(objects, fault, [])
  {
  }

  /** The first command of a batch, and what follows it. */
  lemma FirstCommand(objects: Objects, fault: Option<Fault>, c: Command, rest: seq<Command>, stopOnError: bool)
    ensures var first := InOrder(objects, fault, [c], stopOnError);
            var second := InOrder(first.objects, first.fault, rest, stopOnError);
            InOrder(objects, fault, [c] + rest, stopOnError) == Following(first, second, stopOnError)
  {
    hide RunArmed, Hits;
    assert ([c] + rest)[1..] == rest && [c][1..] == [];
    EmptyBatch(objects, if Hits(fault, c.uri) then None else fault, stopOnError);
  }

  /** Two trails one after the other, unless the first ended with an error. */
  function Following(first: Trail, second: Trail, stopOnError: bool): Trail {
    if stopOnError && first.errs != [] then first
    else Trail(second.objects, second.fault, first.errs + second.errs)
  }

  /** A batch in two parts: the second follows on the first, with all errors collected in order, unless the first
      part met an error and the batch stops on errors. */
  lemma {:induction false} BatchInParts(objects: Objects, fault: Option<Fault>, a: seq<Command>, b: seq<Command>,
                                        stopOnError: bool)
    ensures var first := InOrder(objects, fault, a, stopOnError);
            var second := InOrder(first.objects, first.fault, b, stopOnError);
            InOrder(objects, fault, a + b, stopOnError) == Following(first, second, stopOnError)
    decreases |a|
  {
    hide InOrder;
    if a == [] {
      EmptyBatch(objects, fault, stopOnError);
      assert a + b == b;
    } else {
      assert [a[0]] + (a[1..] + b) == a + b && [a[0]] + a[1..] == a;
      FirstCommand(objects, fault, a[0], a[1..], stopOnError);
      FirstCommand(objects, fault, a[0], a[1..] + b, stopOnError);
      var first := InOrder(objects, fault, [a[0]], stopOnError);
      BatchInParts(first.objects, first.fault, a[1..], b, stopOnError);
    }
  }
}
