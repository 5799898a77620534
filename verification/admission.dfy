/** The size check `media_handler` applies before it opens a session. */
module Admission {

  /** One gibibyte, `1024**3`. */
  const GiB: nat := 1024 * 1024 * 1024

  /** Smallest accepted size, `1 * 1024**3` bytes. */
  const MinSize: nat := 1 * GiB

  /** Largest accepted size, `4 * 1024**3` bytes. */
  const MaxSize: nat := 4 * GiB

  /** The reply sent for a file outside the accepted range. */
  const RejectReply: string := "File must be 1GB\U{2013}4GB"

  datatype Verdict = Eligible | Rejected(reply: string)

  /** The range the bot accepts, stated as a closed interval. */
  predicate Admissible(size: nat)
  {
    MinSize <= size <= MaxSize
  }

  /** The check as the handler writes it: reject when the size is below the
      lower bound or above the upper bound. */
  function Admit(size: nat): (v: Verdict)
    ensures v.Eligible? <==> Admissible(size)
    ensures v.Eligible? <==> 1073741824 <= size <= 4294967296
    ensures v.Rejected? ==> v.reply == RejectReply
  {
    if size < MinSize || size > MaxSize then Rejected(RejectReply) else Eligible
  }

  /** Both ends of the range are accepted and their neighbours outside it
      are not: the bounds are inclusive. */
  lemma BoundsAreInclusive()
    ensures Admit(MinSize).Eligible? && Admit(MaxSize).Eligible?
    ensures Admit(MinSize - 1).Rejected? && Admit(MaxSize + 1).Rejected?
    ensures Admit(0).Rejected?
  {
  }
}
