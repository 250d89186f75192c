/** App User IDs and the durable identity file. */
module IdentityModel {
  import opened Options

  type UserId = string

  const MAX_APP_USER_ID_BYTES: nat := 1024
  const ANONYMOUS_ID_PREFIX := "$RCAnonymousID:"

  /** Rust's `char::is_whitespace`. */
  predicate IsWhitespace(c: char) {
    var n := c as int;
    || 0x09 <= n <= 0x0D || n == 0x20 || n == 0x85 || n == 0xA0 || n == 0x1680
    || 0x2000 <= n <= 0x200A || n == 0x2028 || n == 0x2029 || n == 0x202F || n == 0x205F || n == 0x3000
  }

  predicate IsBlank(s: string) {
    forall i :: 0 <= i < |s| ==> IsWhitespace(s[i])
  }

  function Utf8Length(s: string): (n: nat)
    ensures n <= 4 * |s|
  {
    if s == [] then 0
    else
      var c := s[0] as int;
      (if c < 0x80 then 1 else if c < 0x800 then 2 else if c < 0x1_0000 then 3 else 4) + Utf8Length(s[1..])
  }

  predicate ValidAppUserId(id: UserId) {
    !IsBlank(id) && Utf8Length(id) <= MAX_APP_USER_ID_BYTES
  }

  predicate IsLowerHex(c: char) {
    '0' <= c <= '9' || 'a' <= c <= 'f'
  }

  predicate IsAnonymousId(id: UserId) {
    && |id| == |ANONYMOUS_ID_PREFIX| + 32
    && id[..|ANONYMOUS_ID_PREFIX|] == ANONYMOUS_ID_PREFIX
    && forall i :: |ANONYMOUS_ID_PREFIX| <= i < |id| ==> IsLowerHex(id[i])
  }

  lemma AnonymousIdsAreValid(id: UserId)
    requires IsAnonymousId(id)
    ensures ValidAppUserId(id)
  {
    assert id[0] == id[..|ANONYMOUS_ID_PREFIX|][0] == '$';
    assert !IsWhitespace(id[0]);
  }

  datatype TransitionKind = LogInOperation | LogOutOperation

  datatype PersistedIdentity = PersistedIdentity(
    current: UserId,
    pending: Option<UserId>,
    operation: Option<TransitionKind>)

  function Settled(id: UserId): PersistedIdentity {
    PersistedIdentity(id, None, None)
  }

  function Transitioning(current: UserId, pending: UserId, kind: TransitionKind): PersistedIdentity {
    PersistedIdentity(current, Some(pending), Some(kind))
  }

  predicate ValidIdentity(i: PersistedIdentity) {
    && ValidAppUserId(i.current)
    && (i.pending.Some? ==> ValidAppUserId(i.pending.value))
    && i.pending.Some? == i.operation.Some?
  }

  /** What the identity file can hold. `Legacy` is the bare id of an older release. */
  datatype IdentityFile = Missing | Garbage | Legacy(id: UserId) | Current(identity: PersistedIdentity)

  datatype Loaded = LoadFailed | Loaded(identity: Option<PersistedIdentity>)

  function Load(file: IdentityFile): Loaded {
    match file
    case Missing => Loaded(None)
    case Garbage => LoadFailed
    case Legacy(id) => if ValidIdentity(Settled(id)) then Loaded(Some(Settled(id))) else LoadFailed
    case Current(i) => if ValidIdentity(i) then Loaded(Some(i)) else LoadFailed
  }

  /**
   * One attempt to write the file. The rename is atomic, but the directory sync after it can
   * still fail, so a failure may be reported although the new content is in place.
   */
  datatype DiskWrite = Succeeds | FailsBefore | FailsAfter | DiesBefore | DiesAfter

  datatype Outcome = Done | Failed | Died

  function Persist(file: IdentityFile, i: PersistedIdentity, w: DiskWrite): (IdentityFile, Outcome) {
    if !ValidIdentity(i) then (file, Failed)
    else
      match w
      case Succeeds => (Current(i), Done)
      case FailsBefore => (file, Failed)
      case FailsAfter => (Current(i), Failed)
      case DiesBefore => (file, Died)
      case DiesAfter => (Current(i), Died)
  }
}
