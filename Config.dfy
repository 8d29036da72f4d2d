/** The configuration constants the core reads (src/config.py). */
module Config {
  /** Name of the class that holds one record per completed upload. */
  const METADATA_COLLECTION: string := "DocumentMetadata"

  const DEFAULT_MAX_TOKENS: int := 4096

  /** 0.7 as written in the configuration; binary floating point is not modelled. */
  const DEFAULT_TEMPERATURE: real := 0.7

  /** Splitter settings; the splitter itself is a wrapped library. */
  const CHUNK_SIZE: nat := 1024
  const CHUNK_OVERLAP: nat := 128
}
