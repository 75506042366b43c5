/** ETags, conditional options and the decisions of store/helpers.go. */
module Conditions {
  import opened Common

  type Data = string

  /** A tag is the digest of some content, the wildcard, or any other text; digests are injective. */
  datatype ETag = Digest(data: Data) | Star | Foreign(text: string)

  /** Either[bool, string]: unset, a flag, or a tag. */
  datatype Choice = Unset | Flag(on: bool) | Tag(etag: ETag)

  datatype Conditions = Conditions(ifMatch: Choice, ifNoMatch: Choice)

  const Unconditional := Conditions(Unset, Unset)

  predicate WantsIfNoneMatchStar(c: Conditions) {
    c.ifNoMatch == Tag(Star) || c.ifNoMatch == Flag(true)
  }

  predicate WantsIfMatchExists(c: Conditions) {
    c.ifMatch == Flag(true)
  }

  /** `current` is the ETag of the stored object, if there is one. */
  function ApplyConditionalGet(current: ETag, c: Conditions): Option<Code> {
    if c.ifMatch.Tag? && c.ifMatch.etag != current then Some(PreconditionFailed)
    else if c.ifNoMatch.Tag? && c.ifNoMatch.etag == current then Some(NotModified)
    else None
  }

  function ApplyConditionalPut(current: Option<ETag>, c: Conditions): Option<Code> {
    if WantsIfNoneMatchStar(c) && current.Some? then Some(PreconditionFailed)
    else if WantsIfMatchExists(c) && current.None? then Some(PreconditionFailed)
    else if c.ifMatch.Tag? && current.None? then Some(PreconditionFailed)
    else if c.ifMatch.Tag? && current.value != c.ifMatch.etag then Some(PreconditionFailed)
    else if c.ifNoMatch.Tag? && c.ifNoMatch.etag != Star && current == Some(c.ifNoMatch.etag) then
      Some(PreconditionFailed)
    else None
  }

  /** Deletes look at If-Match only. */
  function ApplyConditionalDelete(current: Option<ETag>, c: Conditions): Option<Code> {
    if WantsIfMatchExists(c) && current.None? then Some(PreconditionFailed)
    else if c.ifMatch.Tag? && current.None? then Some(PreconditionFailed)
    else if c.ifMatch.Tag? && current.value != c.ifMatch.etag then Some(PreconditionFailed)
    else None
  }

  /** What If-Match asks of the stored object: that it exist, or that it carry the tag. */
  predicate MatchHolds(current: Option<ETag>, choice: Choice) {
    match choice
    case Unset => true
    case Flag(on) => on ==> current.Some?
    case Tag(etag) => current == Some(etag)
  }

  /** What If-None-Match asks: that it not exist, or not carry the tag. */
  predicate NoneMatchHolds(current: Option<ETag>, choice: Choice) {
    match choice
    case Unset => true
    case Flag(on) => on ==> current.None?
    case Tag(etag) => if etag == Star then current.None? else current != Some(etag)
  }

  /** The same for a read, where only tags count. */
  predicate MatchTagHolds(current: ETag, choice: Choice) {
    choice.Tag? ==> current == choice.etag
  }

  predicate NoneMatchTagHolds(current: ETag, choice: Choice) {
    choice.Tag? ==> current != choice.etag
  }

  /** A write passes exactly when both of its conditions hold; a delete when its If-Match does. A read is
      refused for its If-Match tag if that is another one, and only otherwise for its If-None-Match tag, if
      that is the object's; flags mean nothing to it. */
  lemma ConditionsMeaning(current: Option<ETag>, c: Conditions)
    ensures ApplyConditionalPut(current, c).None? <==>
              MatchHolds(current, c.ifMatch) && NoneMatchHolds(current, c.ifNoMatch)
    ensures ApplyConditionalDelete(current, c).None? <==> MatchHolds(current, c.ifMatch)
    ensures ApplyConditionalPut(current, c).Some? ==> ApplyConditionalPut(current, c) == Some(PreconditionFailed)
    ensures ApplyConditionalDelete(current, c).Some? ==> ApplyConditionalDelete(current, c) == Some(PreconditionFailed)
    ensures current.Some? ==>
              var r := ApplyConditionalGet(current.value, c);
              && (r.None? <==> MatchTagHolds(current.value, c.ifMatch) && NoneMatchTagHolds(current.value, c.ifNoMatch))
              && (r == Some(PreconditionFailed) <==> !MatchTagHolds(current.value, c.ifMatch))
              && (r == Some(NotModified) <==>
                    MatchTagHolds(current.value, c.ifMatch) && !NoneMatchTagHolds(current.value, c.ifNoMatch))
  {
  }
}
