/** The numbers that writers and readers of a bundle share (internal/share/bundle/bundle.go). */
module Format {
  const VERSION := 2
  const CHUNK_SIZE := 4 * 1024 * 1024
  const RECORD_OVERHEAD := 40
  const FOOTER_LENGTH := 64
}
