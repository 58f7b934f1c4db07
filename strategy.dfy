/**
 * The result every limiting strategy returns: the allow/deny decision and
 * optional strategy-defined metadata.
 */
module Strategy {
  import opened Wrappers

  datatype LimitResult<M> = LimitResult(allowed: bool, metadata: Option<M>) {

    /** An allowing result without metadata. */
    static function Allowed(): (r: LimitResult<M>)
      ensures r.IsAllowed() && r.Metadata().None?
    {
      LimitResult(true, None)
    }

    /** A denying result without metadata. */
    static function Disallowed(): (r: LimitResult<M>)
      ensures !r.IsAllowed() && r.Metadata().None?
    {
      LimitResult(false, None)
    }

    /** The same decision, now carrying `m`. */
    function WithMetadata(m: M): (r: LimitResult<M>)
      ensures r.IsAllowed() == IsAllowed()
      ensures r.Metadata() == Some(m)
    {
      LimitResult(allowed, Some(m))
    }

    /** The stored decision. */
    function IsAllowed(): (b: bool)
      ensures b == allowed
    {
      allowed
    }

    /** The stored metadata, if any. */
    function Metadata(): (o: Option<M>)
      ensures o == metadata
    {
      metadata
    }
  }

  /** Reading a result back gives what it was built from; attaching metadata never flips the decision. */
  lemma AccessorsReturnStoredParts<M>(allowed: bool, metadata: Option<M>, m: M)
    ensures LimitResult(allowed, metadata).IsAllowed() == allowed
    ensures LimitResult(allowed, metadata).Metadata() == metadata
    ensures LimitResult(allowed, metadata).WithMetadata(m) == LimitResult(allowed, Some(m))
  {
  }
}
