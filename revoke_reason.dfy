/** Why a session token was revoked: a closed enumeration of display strings. */
module RevokeReasons {
  import opened Results

  datatype RevokeReason =
    | Expired
    | NewTokenRequested
    | SecurityIssue
    | Cancelled
    | AlreadyUsed
    | PasswordChanged
    | EmailChanged
    | AdminRevoked

  /** Every reason, in declaration order. */
  const AllReasons: seq<RevokeReason> :=
    [Expired, NewTokenRequested, SecurityIssue, Cancelled, AlreadyUsed, PasswordChanged, EmailChanged, AdminRevoked]

  /**
   * The string value of each member, the one stored in the cache: a
   * capitalised, non-empty phrase without a quote, so it is truthy when read
   * back and sits unambiguously between the quotes of the revocation message.
   */
  function Text(r: RevokeReason): (s: string)
    ensures |s| > 0 && 'A' <= s[0] <= 'Z'
    ensures '\'' !in s
  {
    match r
    case Expired => "Expired"
    case NewTokenRequested => "New Token Requested"
    case SecurityIssue => "Security Issue"
    case Cancelled => "Cancelled"
    case AlreadyUsed => "Already Used"
    case PasswordChanged => "Password Changed"
    case EmailChanged => "Email Changed"
    case AdminRevoked => "Admin Revoked"
  }

  /** The reason whose string value is `s`, if any. */
  function Parse(s: string): (r: Option<RevokeReason>)
    ensures r.Some? ==> Text(r.value) == s
    ensures r.None? ==> forall x :: Text(x) != s
  {
    if s == "Expired" then Some(Expired)
    else if s == "New Token Requested" then Some(NewTokenRequested)
    else if s == "Security Issue" then Some(SecurityIssue)
    else if s == "Cancelled" then Some(Cancelled)
    else if s == "Already Used" then Some(AlreadyUsed)
    else if s == "Password Changed" then Some(PasswordChanged)
    else if s == "Email Changed" then Some(EmailChanged)
    else if s == "Admin Revoked" then Some(AdminRevoked)
    else None
  }

  /** There are exactly eight reasons, each listed once. */
  lemma EightReasons()
    ensures |AllReasons| == 8
    ensures forall r: RevokeReason :: r in AllReasons
    ensures forall i, j :: 0 <= i < j < |AllReasons| ==> AllReasons[i] != AllReasons[j]
  {
    forall r: RevokeReason ensures r in AllReasons {
      match r
      case Expired => assert AllReasons[0] == r;
      case NewTokenRequested => assert AllReasons[1] == r;
      case SecurityIssue => assert AllReasons[2] == r;
      case Cancelled => assert AllReasons[3] == r;
      case AlreadyUsed => assert AllReasons[4] == r;
      case PasswordChanged => assert AllReasons[5] == r;
      case EmailChanged => assert AllReasons[6] == r;
      case AdminRevoked => assert AllReasons[7] == r;
    }
  }

  /** No two reasons share a string value. */
  lemma TextInjective(a: RevokeReason, b: RevokeReason)
    requires Text(a) == Text(b)
    ensures a == b
  {
  }

  /** Parsing a reason's string gives the reason back. */
  lemma ParseText(r: RevokeReason)
    ensures Parse(Text(r)) == Some(r)
  {
  }
}
