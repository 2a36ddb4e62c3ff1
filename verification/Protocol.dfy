/** The signaling vocabulary shared by server and client. Identifiers that the
    program draws at random (peer ids) are symbolic numbers here. */
module Protocol {
  import opened Wrappers

  const INVITE_WINDOW_MIN_MS := 30_000
  const INVITE_WINDOW_MAX_MS := 3_600_000
  const GRACE_MIN_MS := 15_000
  const GRACE_MAX_MS := 1_800_000

  datatype RoomId = RoomId(text: string)
  type PeerId = nat
  type Link = nat

  datatype ErrorCode = RoomNotFound | RoomIsFull | RoomExists | ConfigInvalid | RateLimited

  datatype ClosedReason = InviteExpired | GraceExpired | CreatorLeft | PeerEnded

  /** Non-secret room metadata carried by a recovery token. */
  datatype RecoveryPayload = RecoveryPayload(
    roomId: RoomId,
    createdAt: int,
    pairedAt: Option<int>,
    inviteWindowMs: int,
    graceDurationMs: int)

  datatype ServerMessage =
    | Created(peer: PeerId, token: Option<RecoveryPayload>)
    | Joined(peer: PeerId, participants: seq<PeerId>, graceDurationMs: int, token: Option<RecoveryPayload>)
    | PeerJoined(peer: PeerId, token: Option<RecoveryPayload>)
    | Signal(from: PeerId, payload: string)
    | PeerLeft(peer: PeerId)
    | ErrorMessage(code: ErrorCode)
    | RoomClosed(reason: ClosedReason)
    | Pong

  predicate IsUrlChar(c: char) {
    'A' <= c <= 'Z' || 'a' <= c <= 'z' || '0' <= c <= '9' || c == '-' || c == '_'
  }

  /** A path token: exactly 22 characters of the base64url alphabet. */
  predicate IsPathToken(s: string) {
    |s| == 22 && forall i :: 0 <= i < |s| ==> IsUrlChar(s[i])
  }
}
