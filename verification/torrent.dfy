/**
 * The records a torrent file decodes to (src/lib.rs, `Torrent`, `TorrentRaw`,
 * `Info` and `MagnetDetail`), with Rust's fixed-width integers written out
 * as bounded subset types.
 */
module TorrentTypes {
  import opened Wrappers

  type Byte = b: int | 0 <= b < 0x100
  type Bytes = seq<Byte>

  /** Rust `u64`. */
  type U64 = n: nat | n < 0x1_0000_0000_0000_0000
  /** Rust `u32`. */
  type U32 = n: nat | n < 0x1_0000_0000

  /** The `info` dictionary as the structured decoder reads it. */
  datatype Info = Info(
    length: Option<U64>,
    name: Option<string>,
    pieceLength: U64,     // on-wire key "piece length"
    pieces: Bytes,
    private: Option<U32>)

  /** The whole torrent document as the structured decoder reads it. */
  datatype Torrent = Torrent(
    announce: string,
    announceList: Option<seq<seq<string>>>,   // on-wire key "announce-list": tiers of trackers
    info: Info)

  /** The second, raw reading of the same document: `info` kept as its verbatim bytes. */
  datatype TorrentRaw = TorrentRaw(announce: string, info: Bytes)

  /** Everything needed to build a magnet URI. */
  datatype MagnetDetail = MagnetDetail(torrent: Torrent, hash: string)
}
