/** The closed set of classifications the deep-clean service reports, each
    with the fixed integer rank it carries (com.rodaxsoft.mail.EmailStatus). */
module Status {

  /** The ten variants, in the order they are declared. */
  datatype EmailStatus =
    | Processing  // still being checked; ask again later
    | Clean
    | Invalid     // fails syntax or RFC checks
    | NoReply
    | SpamTrap
    | BadMx       // mail server absent or misconfigured
    | Bounced
    | CatchAll    // server accepts fake and real addresses alike
    | Suspicious
    | Unknown

  /** Every variant, in declaration order. */
  const Declared: seq<EmailStatus> :=
    [Processing, Clean, Invalid, NoReply, SpamTrap, BadMx, Bounced, CatchAll, Suspicious, Unknown]

  /** The ranks the enum's constructor is given, in declaration order. */
  const Ranks: seq<int> := [1, 2, 3, 5, 7, 9, 11, 12, 13, 15]

  /** getStatusInt(): the rank fixed when the variant was created. */
  function StatusInt(s: EmailStatus): (r: int)
    ensures 1 <= r <= 15
    ensures r == Ranks[Ordinal(s)]
  {
    match s
    case Processing => 1
    case Clean => 2
    case Invalid => 3
    case NoReply => 5
    case SpamTrap => 7
    case BadMx => 9
    case Bounced => 11
    case CatchAll => 12
    case Suspicious => 13
    case Unknown => 15
  }

  /** ordinal(): the variant's position in the declaration. */
  function Ordinal(s: EmailStatus): (k: nat)
    ensures k < |Declared| && Declared[k] == s
  {
    match s
    case Processing => 0
    case Clean => 1
    case Invalid => 2
    case NoReply => 3
    case SpamTrap => 4
    case BadMx => 5
    case Bounced => 6
    case CatchAll => 7
    case Suspicious => 8
    case Unknown => 9
  }

  /** Declared lists every variant exactly once. */
  lemma DeclaredEnumerates()
    ensures |Declared| == 10
    ensures forall s: EmailStatus :: s in Declared
    ensures forall i, j :: 0 <= i < j < |Declared| ==> Declared[i] != Declared[j]
  {
    forall s: EmailStatus ensures s in Declared {
      assert Declared[Ordinal(s)] == s;
    }
  }

  /** Ranks strictly increase along the declaration order. */
  lemma RanksIncrease(a: EmailStatus, b: EmailStatus)
    ensures Ordinal(a) < Ordinal(b) <==> StatusInt(a) < StatusInt(b)
  {
  }

  /** No two variants share a rank. */
  lemma StatusIntInjective(a: EmailStatus, b: EmailStatus)
    ensures StatusInt(a) == StatusInt(b) ==> a == b
  {
  }

  /** Listed in declaration order, the ranks are exactly
      1, 2, 3, 5, 7, 9, 11, 12, 13, 15. */
  lemma RanksInOrder()
    ensures |Ranks| == |Declared|
    ensures forall i :: 0 <= i < |Declared| ==> StatusInt(Declared[i]) == Ranks[i]
  {
  }
}
