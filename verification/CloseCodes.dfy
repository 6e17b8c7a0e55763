/** The WebSocket close codes the protocols below tell apart. */
module CloseCodes {
  const NORMAL: nat := 1000
  const TTL_EXPIRED: nat := 4001
  const TAKEOVER: nat := 4002
  const SESSION_ENDED: nat := 4004
  const SLOW_CLIENT: nat := 4005
  const LIVENESS_TIMEOUT: nat := 4011
}
