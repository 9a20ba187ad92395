/** The wire strings of the status vocabulary: the exact `email_status`
    values the service sends (com.rodaxsoft.listwise.IEmailStatusValues). */
module StatusValues {

  import Status

  const Invalid: string := "invalid"
  const NoReply: string := "no-reply"
  const SpamTrap: string := "spam-trap"
  const BadMx: string := "bad-mx"
  const Bounced: string := "bounced"
  const CatchAll: string := "catch-all"
  const Suspicious: string := "suspicious"
  const Unknown: string := "unknown"
  const Clean: string := "clean"
  const Processing: string := "processing"

  /** The ten constants, in the order the interface declares them. */
  const Values: seq<string> :=
    [Invalid, NoReply, SpamTrap, BadMx, Bounced, CatchAll, Suspicious, Unknown, Clean, Processing]

  /** The constant that bears the variant's name. */
  function ValueOf(s: Status.EmailStatus): (w: string)
    ensures w in Values
  {
    match s
    case Processing => Processing
    case Clean => Clean
    case Invalid => Invalid
    case NoReply => NoReply
    case SpamTrap => SpamTrap
    case BadMx => BadMx
    case Bounced => Bounced
    case CatchAll => CatchAll
    case Suspicious => Suspicious
    case Unknown => Unknown
  }

  /** A character a wire string may use: a lower-case ASCII letter or a hyphen. */
  predicate IsWireChar(c: char) {
    'a' <= c <= 'z' || c == '-'
  }

  /** The ten constants are pairwise distinct. */
  lemma ValuesDistinct()
    ensures |Values| == 10
    ensures forall i, j :: 0 <= i < j < |Values| ==> Values[i] != Values[j]
  {
  }

  /** Every constant is non-empty and made of lower-case letters and hyphens. */
  lemma ValuesWellFormed()
    ensures forall i :: 0 <= i < |Values| ==> |Values[i]| > 0
    ensures forall i, k :: 0 <= i < |Values| && 0 <= k < |Values[i]| ==> IsWireChar(Values[i][k])
  {
  }

  /** Variants and constants correspond one to one: every constant names
      exactly one variant, and distinct variants have distinct constants. */
  lemma ValueOfBijective()
    ensures forall a: Status.EmailStatus, b: Status.EmailStatus :: ValueOf(a) == ValueOf(b) ==> a == b
    ensures forall w :: w in Values ==> exists s: Status.EmailStatus :: ValueOf(s) == w
  {
    var named := [Status.Invalid, Status.NoReply, Status.SpamTrap, Status.BadMx, Status.Bounced,
                  Status.CatchAll, Status.Suspicious, Status.Unknown, Status.Clean, Status.Processing];
    forall i | 0 <= i < |Values| ensures ValueOf(named[i]) == Values[i] { }
  }
}
