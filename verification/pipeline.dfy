/**
 * `decode` and `magnet_from_torrent` (src/lib.rs:87-113): the document is read
 * twice by the bencode library, once into a `Torrent` and once into a
 * `TorrentRaw` whose `info` is the verbatim byte span; the span is hashed with
 * SHA-1 and the digest written in Base32. The library, the digest and the
 * encodings are out of view and come in as the fields of `Collaborators`.
 */
module Pipeline {
  import opened Wrappers
  import opened TorrentTypes
  import Magnet

  /** A SHA-1 digest: 20 bytes. */
  type Digest = s: Bytes | |s| == 20 witness seq(20, _ => 0)

  const Base32Alphabet: string := "ABCDEFGHIJKLMNOPQRSTUVWXYZ234567"

  /**
   * A 20-byte value in the Base32 alphabet of section 6 of RFC 4648:
   * 160 bits are exactly 32 five-bit symbols, so no padding appears.
   */
  predicate IsBase32Digest(s: string) {
    |s| == 32 && forall i :: 0 <= i < |s| ==> s[i] in Base32Alphabet
  }

  type Base32Digest = s: string | IsBase32Digest(s) witness "AAAAAAAAAAAAAAAAAAAAAAAAAAAAAAAA"

  /** Which of the two readings of the document failed (each is an `unwrap` in the source). */
  datatype DecodeError = TorrentUnreadable | RawInfoUnreadable

  /** The code `decode` calls but that is not part of this model. */
  datatype Collaborators = Collaborators(
    parseTorrent: Bytes -> Option<Torrent>,    // bt_bencode::from_slice::<Torrent>
    parseRaw: Bytes -> Option<TorrentRaw>,     // bt_bencode::from_slice::<TorrentRaw>
    sha1: Bytes -> Digest,
    base32: Digest -> Base32Digest,            // data_encoding::BASE32
    percentEncode: string -> string)           // urlencoding::encode

  /** The content hash of the verbatim `info` bytes. */
  function InfoHash(c: Collaborators, info: Bytes): (h: string)
    ensures IsBase32Digest(h)
  {
    c.base32(c.sha1(info))
  }

  /**
   * `decode`: both readings must succeed; the detail carries the structured
   * reading unchanged and the hash of the raw `info` bytes.
   */
  function Decode(c: Collaborators, bytes: Bytes): (r: Result<MagnetDetail, DecodeError>)
    ensures r.Success? <==> c.parseTorrent(bytes).Some? && c.parseRaw(bytes).Some?
    ensures c.parseTorrent(bytes).None? ==> r == Failure(TorrentUnreadable)
    ensures c.parseTorrent(bytes).Some? && c.parseRaw(bytes).None? ==> r == Failure(RawInfoUnreadable)
    ensures r.Success? ==> r.value.torrent == c.parseTorrent(bytes).value
    ensures r.Success? ==> r.value.hash == InfoHash(c, c.parseRaw(bytes).value.info)
  {
    match c.parseTorrent(bytes)
    case None => Failure(TorrentUnreadable)
    case Some(torrent) =>
      match c.parseRaw(bytes)
      case None => Failure(RawInfoUnreadable)
      case Some(raw) => Success(MagnetDetail(torrent, InfoHash(c, raw.info)))
  }

  /** `magnet_from_torrent`: decode, then format. */
  function MagnetFromTorrent(c: Collaborators, bytes: Bytes): (r: Result<string, DecodeError>)
    ensures r.Failure? <==> Decode(c, bytes).Failure?
    ensures r.Failure? ==> r.error == Decode(c, bytes).error
    ensures r.Success? ==> r.value == Magnet.MagnetUri(Decode(c, bytes).value, c.percentEncode)
  {
    match Decode(c, bytes)
    case Failure(e) => Failure(e)
    case Success(d) => Success(Magnet.MagnetUri(d, c.percentEncode))
  }

  /** Two documents whose `info` spans are byte-identical get the same hash. */
  lemma HashDependsOnlyOnInfo(c: Collaborators, a: Bytes, b: Bytes)
    requires Decode(c, a).Success? && Decode(c, b).Success?
    requires c.parseRaw(a).value.info == c.parseRaw(b).value.info
    ensures Decode(c, a).value.hash == Decode(c, b).value.hash
  {
  }

  /**
   * In a produced URI, the 32 characters after the prefix are the hash of the
   * raw `info` bytes and are followed by '&'; none of them is '&', so the
   * hash can be read back from the URI alone.
   */
  lemma UriCarriesInfoHash(c: Collaborators, bytes: Bytes)
    requires MagnetFromTorrent(c, bytes).Success?
    ensures var uri := MagnetFromTorrent(c, bytes).value;
      var n := |Magnet.UriPrefix|;
      var h := InfoHash(c, c.parseRaw(bytes).value.info);
      && n + 32 < |uri|
      && uri[n..n + 32] == h
      && uri[n + 32] == '&'
      && '&' !in h
  {
    var d := Decode(c, bytes).value;
    var h := InfoHash(c, c.parseRaw(bytes).value.info);
    assert MagnetFromTorrent(c, bytes).value == Magnet.MagnetUri(d, c.percentEncode) && d.hash == h;
    Magnet.UriLayout(d, c.percentEncode);
    Base32WithoutAmpersand(h);
  }

  lemma Base32WithoutAmpersand(h: string)
    requires IsBase32Digest(h)
    ensures '&' !in h
  {
    assert '&' !in Base32Alphabet;
  }

  /** Documents with the same `info` bytes yield URIs that agree up to and including the '&' after the hash. */
  lemma SameInfoSameUriHead(c: Collaborators, a: Bytes, b: Bytes)
    requires MagnetFromTorrent(c, a).Success? && MagnetFromTorrent(c, b).Success?
    requires c.parseRaw(a).value.info == c.parseRaw(b).value.info
    ensures var n := |Magnet.UriPrefix| + 33;
      n <= |MagnetFromTorrent(c, a).value| && n <= |MagnetFromTorrent(c, b).value|
      && MagnetFromTorrent(c, a).value[..n] == MagnetFromTorrent(c, b).value[..n]
  {
    UriCarriesInfoHash(c, a);
    UriCarriesInfoHash(c, b);
    var n := |Magnet.UriPrefix|;
    var ua := MagnetFromTorrent(c, a).value;
    var ub := MagnetFromTorrent(c, b).value;
    Magnet.UriLayout(Decode(c, a).value, c.percentEncode);
    Magnet.UriLayout(Decode(c, b).value, c.percentEncode);
    assert ua[..n + 33] == ua[..n] + ua[n..n + 32] + [ua[n + 32]];
    assert ub[..n + 33] == ub[..n] + ub[n..n + 32] + [ub[n + 32]];
  }
}
