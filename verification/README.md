# rs_torrent_magnet, modelled in Dafny

This project models the core of the `rs_torrent_magnet` crate: how it turns a
decoded torrent into a `magnet:` URI.

- `MagnetDetail::as_magnet` is modelled in full. It builds the parameter list
  in push order: `dn` for the name, `xl` for the single-file length, then `tr`
  for the trackers. The tier list (`announce-list`) takes precedence over
  `announce`. The parameters are rendered as `key=value` and joined with `&`
  behind `magnet:?xt=urn:btih:<hash>&`.
- `decode` and `magnet_from_torrent` are modelled as a composition of
  collaborators this model cannot see. The document is read twice by the
  bencode library: once into `Torrent`, and once into `TorrentRaw`, whose
  `info` is the verbatim byte span. That span goes through SHA-1 and then
  Base32, using the alphabet of section 6 of RFC 4648.

Files:

- `wrappers.dfy`: `Option` and `Result`.
- `torrent.dfy`: the records `Torrent`, `Info`, `TorrentRaw` and
  `MagnetDetail`. Rust's `u64` and `u32` are bounded subset types.
- `decimal.dfy`: `u64::to_string` as a decimal numeral, with the function
  that reads it back.
- `query.dfy`: parameters, their `key=value` rendering, the `&`-join, and a
  split at `&` used to read a joined query back.
- `seqs.dfy`: regroupings of sequence concatenations used by the proofs.
- `magnet.dfy`: parameter building, the magnet URI, and the imperative
  `as_magnet` proved equal to it.
- `pipeline.dfy`: `decode` and `magnet_from_torrent`.
- `fixture.dfy`: the URI the crate's tests expect for their fixture torrent.

Collaborators are function-valued parameters:

- `urlencoding::encode` is `enc: string -> string` (the field
  `percentEncode` in `Pipeline.Collaborators`). Nothing is assumed about it.
  In particular, it may produce `&` or `=`.
- `bt_bencode::from_slice` (once for each of the two target types), SHA-1
  and `BASE32.encode` are fields of `Pipeline.Collaborators`. The types
  promise only that a SHA-1 digest is 20 bytes, and that its Base32 text is
  32 characters of the RFC 4648 alphabet (160 bits make exactly 32 five-bit
  symbols, so there is no padding).

With no parameters (an `announce-list` present but with no entries, no name
and no length) the URI still ends in `&`, because src/lib.rs:66 writes
`...<hash>&` unconditionally. `Magnet.EmptyParamsTrailingAmpersand` states
this.

## Model

| member | source | states |
|---|---|---|
| Magnet.AsMagnet | src/lib.rs:47-67 | pushing the parameters with nested loops, then joining and prefixing, yields exactly the URI `MagnetUri` describes |
| Magnet.CollectParams | src/lib.rs:48-63 | the `dn`/`xl` pushes and the tier-then-entry loops (or the single `announce` push) build exactly the list `Params` describes |
| Magnet.PushTrackers | src/lib.rs:55-63 | with a tier list, the outer loop appends one `tr` per entry, tier by tier; without one, it appends the single `tr` for `announce` |
| Magnet.PushTier | src/lib.rs:57-59 | the inner loop appends one `tr=enc(entry)` per entry of a tier, in the tier's order, after what was already there |
| Query.JoinParams | src/lib.rs:64 | the left-to-right join puts one `&` between consecutive renderings and none before the first or after the last |
| Magnet.NameParams | src/lib.rs:49-51 | a name gives exactly one parameter, `dn` carrying the encoded name; no name gives none |
| Magnet.LengthParams | src/lib.rs:52-54 | a length gives exactly one parameter, `xl` carrying the canonical decimal numeral of the length, not encoded (digits only, reads back as the length); no length gives none |
| Magnet.TrackerUrls | src/lib.rs:55-63 | the number of tracker URLs is the tier list's total entries, or 1 without a tier list; which URLs they are is stated by `Magnet.TrackerUrlsChoice` |
| Magnet.TrackerUrlsChoice | src/lib.rs:55-63 | the tier list wins over `announce`: with one, entry j of tier i is the URL after all earlier tiers' entries and the j earlier entries of its tier; without one, the only URL is `announce` |
| Magnet.MagnetUri | src/lib.rs:66 | the URI begins with the prefix, the hash and `&`, and is exactly as long as those plus the joined parameters |
| Magnet.Params | src/lib.rs:48-63 | the count is (name ? 1 : 0) + (length ? 1 : 0) + (tier list ? total entries : 1); a name gives `dn=enc(name)` first; a length gives `xl` next, carrying `FromNat(length)`, the canonical decimal numeral, not encoded; every later parameter is `tr` carrying `enc` of the next tracker URL in order |
| Magnet.ParamKeys | src/lib.rs:48-63 | the key sequence is some `dn`s, then some `xl`s, then some `tr`s: `dn` once exactly when there is a name, `xl` once exactly when there is a length, and one `tr` per tracker |
| Magnet.TierListHidesAnnounce | src/lib.rs:55-63 | with a tier list present, changing `announce` changes no parameter |
| Magnet.TierEntryParam | src/lib.rs:55-60 | entry j of tier i becomes the `tr` parameter right after `dn`/`xl`, the entries of all earlier tiers, and the j earlier entries of its own tier |
| Magnet.AnnounceFallback | src/lib.rs:61-63 | without a tier list, the tracker parameters are exactly one: `tr=enc(announce)` |
| Magnet.FlattenIndex | src/lib.rs:56-57 | in tier-then-entry order, entry j of tier i sits after the entries of all earlier tiers and after the j earlier entries of its own tier |
| Magnet.FlattenLength | src/lib.rs:55-60 | the flattened tier list has as many URLs as the tiers have entries in total |
| Magnet.FlattenConcat | src/lib.rs:56-57 | flattening the concatenation of two tier lists concatenates their flattenings |
| Magnet.UriLayout | src/lib.rs:66 | the URI is `magnet:?xt=urn:btih:`, then the hash verbatim (not encoded), then one `&`, then the joined parameters |
| Magnet.UriAsQuery | src/lib.rs:64-66 | the URI is `magnet:?` followed by the `&`-join of `xt=urn:btih:<hash>` and the parameters; with no parameters a lone `&` trails `xt` |
| Magnet.EmptyParamsTrailingAmpersand | src/lib.rs:66 | no name, no length and a tier list with no entries give exactly `magnet:?xt=urn:btih:<hash>&` |
| Magnet.NameComesFirst | src/lib.rs:49-51 | with a name, the URI goes on after the hash with `&dn=` and the encoded name |
| Magnet.UriQuerySplits | src/lib.rs:64-66 | when neither the hash nor any parameter value contains `&`, splitting the query at `&` returns `xt` and every parameter, rendered, in order; with no parameters the trailing `&` adds one empty piece after `xt` |
| Query.JoinLength | src/lib.rs:64 | the join is as long as all renderings together plus one separator fewer than the number of parameters |
| Query.JoinStartsWithFirst | src/lib.rs:64 | no separator precedes the first parameter: the join begins with its rendering |
| Query.JoinConcat | src/lib.rs:64 | joining two non-empty lists gives their joins with exactly one `&` in between |
| Query.AppendParam | src/lib.rs:64 | appending a parameter to a non-empty list appends `&` and its rendering to the join |
| Query.SplitJoin | src/lib.rs:64 | when no rendering contains `&`, splitting the join at `&` gives back the renderings |
| Query.SplitOnAroundSeparator | src/lib.rs:64 | the source never splits; `SplitOn` is the model's reading of the joined query. A separator between two strings splits the pieces of the first from the pieces of the second |
| Decimal.FromNat | src/lib.rs:53 | the rendering of a length is non-empty, digits only, and has no leading zero |
| Decimal.ValueOfFromNat | src/lib.rs:53 | reading the rendering back gives the number |
| Decimal.FromNatInjective | src/lib.rs:53 | two numbers have the same rendering exactly when they are equal |
| Pipeline.InfoHash | src/lib.rs:92-95 | the hash text is 32 characters of the RFC 4648 Base32 alphabet |
| Pipeline.Decode | src/lib.rs:87-101 | a detail is produced exactly when both readings succeed. A failed structured reading is reported first. The detail's torrent is the structured reading unchanged. Its hash is the Base32 of the SHA-1 of the raw `info` bytes |
| Pipeline.MagnetFromTorrent | src/lib.rs:110-113 | fails exactly when decoding fails, with the same error; otherwise it is the magnet URI of the decoded detail |
| Pipeline.HashDependsOnlyOnInfo | src/lib.rs:90-95 | two documents whose raw `info` bytes are equal get equal hashes |
| Pipeline.UriCarriesInfoHash | src/lib.rs:110-113 | in a produced URI, the 32 characters after the prefix are the hash of the raw `info` bytes, followed by `&`, and contain no `&` |
| Pipeline.SameInfoSameUriHead | src/lib.rs:110-113 | documents with equal raw `info` bytes give URIs that agree up to and including the `&` after the hash |
| Fixture.FixtureUri | src/lib.rs:121-136 | for any `announce` and any grouping of the fixture's eight trackers into tiers, the "Big Buck Bunny" torrent with the fixture hash formats to the URI the tests expect |

## Left out

- `decode_file` and `magnet_from_torrent_file` (src/lib.rs:79-84, 104-107): file I/O. Their failures are `unwrap` panics.
- `from_hex` (src/lib.rs:70-77) and the serde derive and rename machinery: the bencode library's deserialisation is the opaque `parseTorrent`/`parseRaw`. The renamed keys `announce-list` and `piece length` are only noted on the fields.
- The bencode parser, SHA-1 and Base32 are not modelled. They are function parameters constrained only by their result types: a 20-byte digest, and 32 Base32 characters.
- `urlencoding::encode` is an arbitrary function `enc`. The model never relies on what it produces.
- Magnet.UriQuerySplits: reading the query back needs values without `&`. The code does not promise that for `enc`'s output, so the lemma assumes it instead of deriving it.
- Pipeline.Decode: the source panics (`unwrap`) when either reading fails. The model returns `Failure` and names which reading failed first.
- Fixture.FixtureUri: the fixture file and SHA-1 are outside the model. The hash, the flattened trackers and the encoder's outputs for the name and the trackers are taken as given. The lemma derives the rest of the URI.
- `Info.pieceLength`, `Info.pieces` and `Info.private` are carried in the data model but never read by the formatter, as in the source.
