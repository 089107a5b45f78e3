/** The bounds shared by sealing, grants and storage (pkg/attachments/attachments.go). */
module AttachmentLimits {
  const DEFAULT_CHUNK_BYTES: nat := 0x4_0000
  const MAX_CHUNK_BYTES: nat := 0x10_0000
  const MAX_CHUNKS: nat := 2048
  const MAX_PLAINTEXT_BYTES: nat := 0x2000_0000
  const TAG_BYTES: nat := 16
  const MAX_GRANT_LIFETIME: nat := 2592000
}
